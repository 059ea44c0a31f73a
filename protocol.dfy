/**
 * The typed messages exchanged with the backend services through the broker
 * (the `protocol::net`, `sessionsrv`, `jobsrv` and `vault` message types the
 * handlers build and receive). Only the fields the handlers set or read are
 * modelled; a field a handler never sets keeps its protobuf default.
 */
module Protocol {
  import opened Numbers

  /**
   * `protocol::net::ErrCode`. The nine codes named by the handlers are listed;
   * `OtherCode` stands for every further code of the enumeration.
   */
  datatype ErrCode =
    | Bug
    | Timeout
    | RemoteRejected
    | BadRemoteReply
    | EntityNotFound
    | NoShard
    | AccessDenied
    | SessionExpired
    | EntityConflict
    | OtherCode(number: nat)

  /** `NetError`: a code and a human-readable message (`net::err(code, msg)`). */
  datatype NetError = NetError(code: ErrCode, msg: string)

  // ---- sessionsrv ----

  datatype OAuthProvider = GitHubProvider

  datatype SessionCreate = SessionCreate(
    token: string, externId: uint64, email: string, name: string, provider: OAuthProvider)

  /** The authenticated session: the account id and the stored GitHub token. */
  datatype Session = Session(id: uint64, email: string, name: string, token: string)

  // ---- vault ----

  datatype VcsGit = VcsGit(url: string)

  datatype Project = Project(id: string, ownerId: uint64, planPath: string, git: VcsGit)

  /** A `Project` with only its id set, as `Project::new()` followed by `set_id`. */
  function ProjectWithId(id: string): (p: Project)
    ensures p.id == id && p.ownerId == 0 && p.planPath == "" && p.git.url == ""
  {
    Project(id, 0, "", VcsGit(""))
  }

  datatype ProjectGet = ProjectGet(id: string)

  datatype ProjectCreate = ProjectCreate(id: string, ownerId: uint64, planPath: string, git: VcsGit)

  /**
   * The id type of `ProjectDelete` is not fixed by the handlers (it is whatever
   * `id.parse()` targets): it is either the text itself or a number.
   */
  datatype DeleteId = TextId(text: string) | NumericId(number: uint64)

  datatype ProjectDelete = ProjectDelete(id: DeleteId, requestorId: uint64)

  datatype ProjectUpdate = ProjectUpdate(requestorId: uint64, project: Project)

  datatype OriginGet = OriginGet(name: string)

  datatype Origin = Origin(id: uint64, name: string, ownerId: uint64)

  datatype AccountInvitationListRequest = AccountInvitationListRequest(accountId: uint64)

  datatype OriginInvitation = OriginInvitation(id: uint64, originName: string)

  datatype AccountInvitationListResponse =
    AccountInvitationListResponse(accountId: uint64, invitations: seq<OriginInvitation>)

  datatype AccountOriginListRequest = AccountOriginListRequest(accountId: uint64)

  datatype AccountOriginListResponse = AccountOriginListResponse(accountId: uint64, origins: seq<string>)

  datatype OriginInvitationAcceptRequest =
    OriginInvitationAcceptRequest(accountAcceptingRequest: uint64, inviteId: uint64, ignore: bool)

  datatype OriginInvitationAcceptResponse = OriginInvitationAcceptResponse

  /** `NetOk`, the empty acknowledgement. */
  datatype NetOk = NetOk

  // ---- jobsrv ----

  datatype JobSpec = JobSpec(ownerId: uint64, project: Project)

  datatype JobGet = JobGet(id: uint64)

  datatype Job = Job(id: uint64, ownerId: uint64, project: Project)
}
