/**
 * Properties of the handlers that relate several inputs or several handlers:
 * the error table's fall-through, project creation's validation order and
 * failure tags, the one-mutation discipline every handler keeps, how path ids
 * are parsed, the email selection finding, and concrete request examples.
 */
module HandlerFacts {
  import opened Wrappers
  import opened Numbers
  import opened Json
  import opened Protocol
  import opened GitHub
  import opened Plans
  import opened Http
  import opened Trace
  import opened Handlers

  // ---------------------------------------------------------------------------
  // Error translator
  // ---------------------------------------------------------------------------

  /**
   * Codes outside the table, access denied, remote rejected and bug among
   * them, are internal server errors; no backend error ever reads as a 400
   * or as a success.
   */
  lemma UnmappedCodesAreInternal(err: NetError)
    ensures err.code in {AccessDenied, RemoteRejected, Bug} ==> RenderNetError(err).status.Code() == 500
    ensures err.code.OtherCode? ==> RenderNetError(err).status.Code() == 500
    ensures RenderNetError(err).status.Code() >= 401 && RenderNetError(err).status != BadRequest
  {
  }

  // ---------------------------------------------------------------------------
  // project_create: body validation
  // ---------------------------------------------------------------------------

  /**
   * The first required field a body fails to supply decides the 400 and names
   * that field; nothing is called.
   */
  lemma ProjectBodyFirstMissingField(
    session: Session, v: Value, k: nat, github: GitHubCli, parsers: Parsers, broker: Broker)
    requires k < |RequiredFields|
    requires forall j :: 0 <= j < k ==> Supplies(v, j)
    requires !Supplies(v, k)
    ensures ParseProjectBody(Some(v)) == Failure(WithText(BadRequest, MissingField(RequiredFields[k])))
    ensures HandleProjectCreate(session, Some(v), github, parsers, broker).calls == []
  {
    var r := ParseProjectBody(Some(v));
    if k == 0 {
      assert r == Failure(WithText(BadRequest, MissingField("origin")));
    } else if k == 1 {
      assert Supplies(v, 0);
      assert r == Failure(WithText(BadRequest, MissingField("plan_path")));
    } else if k == 2 {
      assert Supplies(v, 0) && Supplies(v, 1);
      assert r == Failure(WithText(BadRequest, MissingField("github")));
    } else if k == 3 {
      assert Supplies(v, 0) && Supplies(v, 1) && Supplies(v, 2);
      assert r == Failure(WithText(BadRequest, MissingField("github.organization")));
    } else {
      assert Supplies(v, 0) && Supplies(v, 1) && Supplies(v, 2) && Supplies(v, 3);
      assert r == Failure(WithText(BadRequest, MissingField("github.repo")));
    }
  }

  /** A body is accepted exactly when it supplies all five required fields. */
  lemma ProjectBodyAccepted(v: Value)
    ensures ParseProjectBody(Some(v)).Success? <==> forall k :: 0 <= k < |RequiredFields| ==> Supplies(v, k)
  {
    if forall k :: 0 <= k < |RequiredFields| ==> Supplies(v, k) {
      assert Supplies(v, 0) && Supplies(v, 1) && Supplies(v, 2) && Supplies(v, 3) && Supplies(v, 4);
    }
  }

  /** A missing body is a bare 400, with no call made. */
  lemma ProjectCreateWithoutBody(session: Session, github: GitHubCli, parsers: Parsers, broker: Broker)
    ensures HandleProjectCreate(session, None, github, parsers, broker) == Outcome(Bare(BadRequest), [])
  {
  }

  // ---------------------------------------------------------------------------
  // project_create: the single mutating call and the failure tags
  // ---------------------------------------------------------------------------

  /**
   * The project creation request is sent exactly when every prerequisite
   * succeeded, as the fourth and last call after the three lookups made with
   * the body's values, and it is the request built from what those steps returned.
   */
  lemma ProjectCreateOnlyAfterPrerequisites(
    session: Session, body: Option<Value>, github: GitHubCli, parsers: Parsers, broker: Broker)
    ensures var r := HandleProjectCreate(session, body, github, parsers, broker);
      (exists i :: 0 <= i < |r.calls| && r.calls[i].RouteProjectCreate?)
        <==> CreatePrerequisites(session, body, github, parsers, broker)
    ensures CreatePrerequisites(session, body, github, parsers, broker) ==>
      var r := HandleProjectCreate(session, body, github, parsers, broker);
      r.calls == ReadCalls(session, body) + [RouteProjectCreate(CreateRequest(session, body, github, parsers, broker))]
  {
  }

  /**
   * The project created carries the requester as owner, the body's plan path,
   * the repository's clone URL and the id "<origin name>/<plan name>".
   */
  lemma CreatedProjectFields(
    session: Session, body: Option<Value>, github: GitHubCli, parsers: Parsers, broker: Broker)
    requires CreatePrerequisites(session, body, github, parsers, broker)
    ensures
      var form := ParseProjectBody(body).value;
      var repo := github.repo(session.token, form.organization, form.repo).value;
      var origin := broker.originGet(OriginGet(form.origin)).value;
      var contents := github.contents(session.token, form.organization, form.repo, form.planPath).value;
      var plan := parsers.planFromBytes(parsers.fromBase64(contents.content).value).value;
      var request := HandleProjectCreate(session, body, github, parsers, broker).calls[3].projectCreate;
      && request.id == origin.name + "/" + plan.name
      && request.ownerId == session.id
      && Some(request.planPath) == FindString(body.value, "plan_path")
      && request.git.url == repo.cloneUrl
  {
  }

  /** A failed repository lookup is a 400 "rg:pc:1" after that one call. */
  lemma RepoLookupFailure(session: Session, body: Option<Value>, github: GitHubCli, parsers: Parsers, broker: Broker)
    requires ParseProjectBody(body).Success?
    requires var f := ParseProjectBody(body).value; github.repo(session.token, f.organization, f.repo).Failure?
    ensures var f := ParseProjectBody(body).value;
      HandleProjectCreate(session, body, github, parsers, broker)
        == Outcome(WithText(BadRequest, "rg:pc:1"), [GitHubRepo(session.token, f.organization, f.repo)])
  {
  }

  /**
   * A failed origin lookup returns the translated backend error; the
   * repository lookup has already been made, the plan file is never fetched.
   */
  lemma OriginLookupFailure(session: Session, body: Option<Value>, github: GitHubCli, parsers: Parsers, broker: Broker)
    requires ParseProjectBody(body).Success?
    requires var f := ParseProjectBody(body).value;
      github.repo(session.token, f.organization, f.repo).Success? && broker.originGet(OriginGet(f.origin)).Failure?
    ensures var f := ParseProjectBody(body).value;
      HandleProjectCreate(session, body, github, parsers, broker)
        == Outcome(RenderNetError(broker.originGet(OriginGet(f.origin)).error),
                   [GitHubRepo(session.token, f.organization, f.repo), RouteOriginGet(OriginGet(f.origin))])
  {
  }

  /** The steps after the origin lookup, each with its own 400 tag. */
  predicate OriginResolved(session: Session, body: Option<Value>, github: GitHubCli, broker: Broker) {
    && ParseProjectBody(body).Success?
    && var f := ParseProjectBody(body).value;
    && github.repo(session.token, f.organization, f.repo).Success?
    && broker.originGet(OriginGet(f.origin)).Success?
  }

  /** The three calls made once the origin is resolved: repository, origin, plan file. */
  function ReadCalls(session: Session, body: Option<Value>): seq<Call>
    requires ParseProjectBody(body).Success?
  {
    var f := ParseProjectBody(body).value;
    [GitHubRepo(session.token, f.organization, f.repo), RouteOriginGet(OriginGet(f.origin)),
     GitHubContents(session.token, f.organization, f.repo, f.planPath)]
  }

  /**
   * Once the origin is resolved: a failed plan file fetch is "rg:pc:2", a
   * failed base64 decode "rg:pc:4", a failed plan parse "rg:pc:3", each a 400
   * after the three read calls and without the creating call.
   */
  lemma PlanFailureTags(session: Session, body: Option<Value>, github: GitHubCli, parsers: Parsers, broker: Broker)
    requires OriginResolved(session, body, github, broker)
    ensures var f := ParseProjectBody(body).value;
      var fetched := github.contents(session.token, f.organization, f.repo, f.planPath);
      var r := HandleProjectCreate(session, body, github, parsers, broker);
      && (fetched.Failure? ==> r == Outcome(WithText(BadRequest, "rg:pc:2"), ReadCalls(session, body)))
      && (fetched.Success? && parsers.fromBase64(fetched.value.content).None? ==>
            r == Outcome(WithText(BadRequest, "rg:pc:4"), ReadCalls(session, body)))
      && (fetched.Success? && parsers.fromBase64(fetched.value.content).Some?
          && parsers.planFromBytes(parsers.fromBase64(fetched.value.content).value).None? ==>
            r == Outcome(WithText(BadRequest, "rg:pc:3"), ReadCalls(session, body)))
  {
  }

  // ---------------------------------------------------------------------------
  // Every handler: at most one mutating call
  // ---------------------------------------------------------------------------

  /** A well-formed outcome holds at most one mutating call, and a 400 none. */
  lemma WellFormedMutatesAtMostOnce(o: Outcome)
    requires WellFormed(o)
    ensures MutationCount(o.calls) <= 1
    ensures o.response.status == BadRequest ==> MutationCount(o.calls) == 0
  {
    MutationOnlyLastBoundsCount(o.calls);
    if o.response.status == BadRequest {
      NoMutationCountsZero(o.calls);
    }
  }

  /** No handler issues more than one mutating backend call. */
  lemma EveryHandlerMutatesAtMostOnce(
    session: Session, params: map<string, string>, body: Option<Value>, github: GitHubCli,
    parsers: Parsers, broker: Broker, parseId: string -> Option<DeleteId>)
    ensures MutationCount(HandleSessionCreate(params, github, broker).calls) <= 1
    ensures MutationCount(HandleJobCreate(body, session, broker).calls) <= 1
    ensures MutationCount(HandleJobShow(params, broker).calls) == 0
    ensures MutationCount(HandleListAccountInvitations(session, broker).calls) == 0
    ensures MutationCount(HandleListUserOrigins(session, broker).calls) == 0
    ensures MutationCount(HandleAcceptInvitation(session, params, broker).calls) <= 1
    ensures MutationCount(HandleProjectCreate(session, body, github, parsers, broker).calls) <= 1
    ensures MutationCount(HandleProjectDelete(session, params, parseId, broker).calls) <= 1
    ensures MutationCount(HandleProjectUpdate(session, params, broker).calls) <= 1
    ensures MutationCount(HandleProjectShow(params, broker).calls) == 0
  {
    WellFormedMutatesAtMostOnce(HandleSessionCreate(params, github, broker));
    WellFormedMutatesAtMostOnce(HandleJobCreate(body, session, broker));
    NoMutationCountsZero(HandleJobShow(params, broker).calls);
    NoMutationCountsZero(HandleListAccountInvitations(session, broker).calls);
    NoMutationCountsZero(HandleListUserOrigins(session, broker).calls);
    WellFormedMutatesAtMostOnce(HandleAcceptInvitation(session, params, broker));
    WellFormedMutatesAtMostOnce(HandleProjectCreate(session, body, github, parsers, broker));
    WellFormedMutatesAtMostOnce(HandleProjectDelete(session, params, parseId, broker));
    WellFormedMutatesAtMostOnce(HandleProjectUpdate(session, params, broker));
    NoMutationCountsZero(HandleProjectShow(params, broker).calls);
  }

  // ---------------------------------------------------------------------------
  // Path ids
  // ---------------------------------------------------------------------------

  /** job_show: a job id with a character that is not a digit (nor a leading `+`) is a bare 400 and no call. */
  lemma JobShowRejectsNonNumericId(params: map<string, string>, i: nat, broker: Broker)
    requires "id" in params
    requires i < |params["id"]| && !IsDigit(params["id"][i]) && !(i == 0 && params["id"][i] == '+')
    ensures HandleJobShow(params, broker) == Outcome(Bare(BadRequest), [])
  {
    ParseU64RejectsNonDigit(params["id"], i);
  }

  /** accept_invitation: the same for the `invitation_id` path parameter. */
  lemma AcceptInvitationRejectsNonNumericId(session: Session, params: map<string, string>, i: nat, broker: Broker)
    requires "invitation_id" in params
    requires i < |params["invitation_id"]| && !IsDigit(params["invitation_id"][i])
    requires !(i == 0 && params["invitation_id"][i] == '+')
    ensures HandleAcceptInvitation(session, params, broker) == Outcome(Bare(BadRequest), [])
  {
    ParseU64RejectsNonDigit(params["invitation_id"], i);
  }

  /** project_delete with a numeric id: the same for the `id` path parameter. */
  lemma ProjectDeleteRejectsNonNumericId(session: Session, params: map<string, string>, i: nat, broker: Broker)
    requires "id" in params
    requires i < |params["id"]| && !IsDigit(params["id"][i]) && !(i == 0 && params["id"][i] == '+')
    ensures HandleProjectDelete(session, params, ParseAsNumber, broker) == Outcome(Bare(BadRequest), [])
  {
    ParseU64RejectsNonDigit(params["id"], i);
  }

  /**
   * Project ids are strings: project_show and project_update reject only a
   * missing id, and so does project_delete when its id is a string.
   */
  lemma StringIdsOnlyMissingRejected(session: Session, params: map<string, string>, broker: Broker)
    requires "id" in params
    ensures |HandleProjectShow(params, broker).calls| == 1
    ensures |HandleProjectUpdate(session, params, broker).calls| == 1
    ensures HandleProjectDelete(session, params, ParseAsText, broker).calls
      == [RouteProjectDelete(ProjectDelete(TextId(params["id"]), session.id))]
  {
  }

  /** A job id written canonically, with or without a `+`, reaches the job service unchanged. */
  lemma CanonicalJobIdReachesBroker(n: uint64, broker: Broker)
    ensures HandleJobShow(map["id" := Decimal(n)], broker).calls == [RouteJobGet(JobGet(n))]
    ensures HandleJobShow(map["id" := "+" + Decimal(n)], broker).calls == [RouteJobGet(JobGet(n))]
  {
    ParseU64OfDecimal(n);
  }

  /**
   * Invitation acceptance stamps the signed-in account, whatever the request
   * says: two requests for the same invitation send the same accept request.
   */
  lemma AcceptingAccountIsTheSession(
    session: Session, params: map<string, string>, other: map<string, string>, broker: Broker)
    requires InvitationId(params).Some? && InvitationId(params) == InvitationId(other)
    ensures HandleAcceptInvitation(session, params, broker).calls
      == HandleAcceptInvitation(session, other, broker).calls
      == [RouteInvitationAccept(OriginInvitationAcceptRequest(session.id, InvitationId(params).value, false))]
  {
  }

  // ---------------------------------------------------------------------------
  // job_show by example
  // ---------------------------------------------------------------------------

  /**
   * GET /jobs/42 reads job 42 and renders it with 200; GET /jobs/abc is a bare
   * 400 with no call; a job the backend does not know is a 404.
   */
  lemma JobShowExamples(broker: Broker, job: Job, notFound: NetError)
    requires broker.jobGet(JobGet(42)) == Success(job)
    requires broker.jobGet(JobGet(99)) == Failure(notFound) && notFound.code == EntityNotFound
    ensures HandleJobShow(map["id" := "42"], broker)
      == Outcome(RenderJson(Ok, JobPayload(job)), [RouteJobGet(JobGet(42))])
    ensures HandleJobShow(map["id" := "abc"], broker) == Outcome(Bare(BadRequest), [])
    ensures HandleJobShow(map["id" := "99"], broker).response.status.Code() == 404
  {
    assert Decimal(42) == "42";
    assert Decimal(99) == "99";
    ParseU64OfDecimal(42);
    ParseU64OfDecimal(99);
    ParseU64RejectsNonDigit("abc", 0);
  }

  // ---------------------------------------------------------------------------
  // Finding: the email selection of session_create
  // ---------------------------------------------------------------------------

  /**
   * As written, an account with no email makes `emails[0]` panic, though the
   * handler's comment promises an access-denied error. On any other list the
   * as-written choice and the corrected one agree.
   */
  lemma EmptyEmailListPanicsAsWritten(emails: seq<Email>)
    ensures ChooseEmailAsWritten([]) == IndexPanic
    ensures |emails| > 0 ==> ChooseEmailAsWritten(emails) == Chosen(SelectEmail(emails).value)
  {
  }

  /**
   * Corrected: a GitHub sign-in whose account has no email is refused with the
   * access-denied error (a 500 by the table) and no session is created.
   */
  lemma SignInWithoutEmailDenied(params: map<string, string>, github: GitHubCli, broker: Broker)
    requires "code" in params && github.authenticate(params["code"]).Success?
    requires var token := github.authenticate(params["code"]).value;
      github.user(token).Success? && github.emails(token) == Success([])
    ensures var r := HandleSessionCreate(params, github, broker);
      && r.response == RenderNetError(NetError(AccessDenied, "rg:auth:0"))
      && r.response.status.Code() == 500
      && NoBrokerCall(r.calls)
  {
  }

  /** A primary address wins over the first one when the account has one. */
  lemma PrimaryEmailPreferred(emails: seq<Email>, k: nat)
    requires k < |emails| && emails[k].primary
    requires forall j :: 0 <= j < k ==> !emails[j].primary
    ensures SelectEmail(emails) == Some(emails[k].email)
  {
    var e := FindPrimary(emails);
    var m :| 0 <= m < |emails| && emails[m] == e.value && e.value.primary
      && forall j :: 0 <= j < m ==> !emails[j].primary;
    assert m == k;
  }
}
