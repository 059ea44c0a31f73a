/**
 * What a handler does to the outside world: the calls it makes, in order.
 * A GitHub call records its arguments; a broker call (`conn.route`) records
 * the typed request message it sends. The broker itself is an oracle with one
 * typed route per request/response pair.
 */
module Trace {
  import opened Wrappers
  import opened Protocol

  datatype Call =
    | GitHubAuthenticate(code: string)
    | GitHubUser(token: string)
    | GitHubEmails(token: string)
    | GitHubRepo(token: string, organization: string, repo: string)
    | GitHubContents(token: string, organization: string, repo: string, path: string)
    | RouteSessionCreate(sessionCreate: SessionCreate)
    | RouteProjectGet(projectGet: ProjectGet)
    | RouteJobSpec(jobSpec: JobSpec)
    | RouteJobGet(jobGet: JobGet)
    | RouteInvitationList(invitationList: AccountInvitationListRequest)
    | RouteOriginList(originList: AccountOriginListRequest)
    | RouteInvitationAccept(accept: OriginInvitationAcceptRequest)
    | RouteOriginGet(originGet: OriginGet)
    | RouteProjectCreate(projectCreate: ProjectCreate)
    | RouteProjectDelete(projectDelete: ProjectDelete)
    | RouteProjectUpdate(projectUpdate: ProjectUpdate)
  {
    /** A call that goes through the broker rather than to GitHub. */
    predicate IsBrokerCall() {
      !(GitHubAuthenticate? || GitHubUser? || GitHubEmails? || GitHubRepo? || GitHubContents?)
    }

    /** A broker call that asks a backend service to change its state. */
    predicate IsMutating() {
      RouteSessionCreate? || RouteJobSpec? || RouteInvitationAccept?
      || RouteProjectCreate? || RouteProjectDelete? || RouteProjectUpdate?
    }
  }

  /** `conn.route::<Req, Resp>`, one typed round trip per request/response pair. */
  datatype Broker = Broker(
    sessionCreate: SessionCreate -> Result<Session, NetError>,
    projectGet: ProjectGet -> Result<Project, NetError>,
    jobSpec: JobSpec -> Result<Job, NetError>,
    jobGet: JobGet -> Result<Job, NetError>,
    invitationList: AccountInvitationListRequest -> Result<AccountInvitationListResponse, NetError>,
    originList: AccountOriginListRequest -> Result<AccountOriginListResponse, NetError>,
    invitationAccept: OriginInvitationAcceptRequest -> Result<OriginInvitationAcceptResponse, NetError>,
    originGet: OriginGet -> Result<Origin, NetError>,
    projectCreate: ProjectCreate -> Result<Project, NetError>,
    projectDelete: ProjectDelete -> Result<NetOk, NetError>,
    projectUpdate: ProjectUpdate -> Result<NetOk, NetError>)

  /** No call in the trace goes through the broker. */
  predicate NoBrokerCall(calls: seq<Call>) {
    forall i :: 0 <= i < |calls| ==> !calls[i].IsBrokerCall()
  }

  /** No call in the trace changes backend state. */
  predicate NoMutation(calls: seq<Call>) {
    forall i :: 0 <= i < |calls| ==> !calls[i].IsMutating()
  }

  /**
   * The read-before-write discipline: a trace holds at most one mutating call,
   * and when it holds one, that call is the last thing the handler did.
   */
  predicate MutationOnlyLast(calls: seq<Call>) {
    forall i :: 0 <= i < |calls| && calls[i].IsMutating() ==> i == |calls| - 1
  }

  /** Number of mutating calls in a trace. */
  function MutationCount(calls: seq<Call>): nat {
    if |calls| == 0 then 0
    else MutationCount(calls[..|calls| - 1]) + (if calls[|calls| - 1].IsMutating() then 1 else 0)
  }

  lemma {:induction false} NoMutationCountsZero(calls: seq<Call>)
    requires NoMutation(calls)
    ensures MutationCount(calls) == 0
  {
    if |calls| > 0 {
      NoMutationCountsZero(calls[..|calls| - 1]);
    }
  }

  /** A trace whose only mutating call is the last one holds at most one mutating call. */
  lemma {:induction false} MutationOnlyLastBoundsCount(calls: seq<Call>)
    requires MutationOnlyLast(calls)
    ensures MutationCount(calls) <= 1
    ensures MutationCount(calls) == 1 <==> |calls| > 0 && calls[|calls| - 1].IsMutating()
  {
    if |calls| > 0 {
      var prefix := calls[..|calls| - 1];
      assert NoMutation(prefix) by {
        forall i | 0 <= i < |prefix| ensures !prefix[i].IsMutating() {
          assert prefix[i] == calls[i];
        }
      }
      NoMutationCountsZero(prefix);
    }
  }
}
