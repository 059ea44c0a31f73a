# Builder API handlers, modelled in Dafny

This project models the HTTP handler layer of the Habitat builder API
(`components/builder-api/src/http/handlers.rs`). That layer turns an HTTP
request into typed backend requests, sends them through the message broker and
GitHub, and turns the result back into an HTTP response.

The model has three parts:

- **The error translator** `render_net_error`. It is a total table from a
  backend `ErrCode` to an HTTP status, with the error itself as the JSON body.
  `render_json` always sets `application/json`.
- **The handlers** `session_create`, `job_create`, `job_show`,
  `list_account_invitations`, `list_user_origins`, `accept_invitation`,
  `project_create`, `project_delete`, `project_update` and `project_show`.
  Each is a short early-exit pipeline. It is modelled as a pure function of its
  inputs and returns an `Outcome`: the response, plus the trace of calls it
  made, in order. The inputs are the path parameters (a map), the JSON body
  (`Json.Value`) and the session. The outcome of each broker route, GitHub call
  and library parser is also an input.
- **Path ids.** `str::parse::<u64>` is modelled as a concrete parser. It takes
  an optional leading `+`, then ASCII digits, with a value below 2^64. Its
  partner is the canonical rendering `Decimal`, and the round trip is proved.

Modules: `Wrappers` (Option, Result), `Numbers` (u64 and its parser), `Json`
(the body document), `Protocol` (backend messages and `NetError`), `GitHub`
(the client oracle), `Plans` (the base64 and plan parsers as oracles), `Http`
(status, response), `Trace` (calls, the broker oracle, mutation predicates),
`Handlers` (the file itself) and `HandlerFacts` (properties relating several
inputs or handlers).

Every handler keeps `Handlers.WellFormed`:

- it makes at most one mutating backend call, and that call comes last;
- a 400 never follows a mutating call;
- a response has the `application/json` header exactly when its body is JSON.

On these points the model follows the code:

- In `project_create`, the GitHub repository lookup runs inside body parsing
  (`handlers.rs:283`), before the origin lookup (`:300`). A failing origin
  lookup therefore still follows a GitHub call; only the plan file fetch is
  skipped.
- The failures `rg:pc:1`..`rg:pc:4` are 400s with a plain-text tag. They do not
  go through the error translator.
- `ACCESS_DENIED`, `REMOTE_REJECTED` and `BUG` fall through to 500.
- Project ids are strings. `project_show` and `project_update` reject only a
  missing id. Only `job_show` and `accept_invitation` reject a non-numeric id.
  The id type of `project_delete` is not visible, so its parser is a parameter.

## Model

| member | source | states |
|---|---|---|
| `Handlers.RenderJson` | components/builder-api/src/http/handlers.rs:161-165 | the response carries the given status, the JSON of the value as body and the `application/json` content type |
| `Handlers.RenderNetError` | components/builder-api/src/http/handlers.rs:178-189 | always a 4xx or 5xx status and never 400; 404/409/503/408/502/401 exactly for entity-not-found, conflict, no-shard, timeout, bad-remote-reply and session-expired; 500 exactly for every other code; body is the error as JSON with `application/json` |
| `HandlerFacts.UnmappedCodesAreInternal` | components/builder-api/src/http/handlers.rs:179-187 | access-denied, remote-rejected, bug and any unlisted code give 500; a backend error never gives 400 or a 2xx |
| `Handlers.FindPrimary` | components/builder-api/src/http/handlers.rs:57 | the `find` over `e.primary`: none exactly when no address is primary, otherwise the first primary address |
| `Handlers.ChooseEmailAsWritten` | components/builder-api/src/http/handlers.rs:53-58 | the selection as written panics exactly on an empty email list |
| `Handlers.SelectEmail` | components/builder-api/src/http/handlers.rs:53-58 | corrected selection: no address exactly for an empty list; the first primary address when there is one; otherwise the first address of the list (`emails[0]`) |
| `HandlerFacts.EmptyEmailListPanicsAsWritten` | components/builder-api/src/http/handlers.rs:53-58 | the empty list panics as written; on every non-empty list the as-written and corrected selections agree |
| `HandlerFacts.PrimaryEmailPreferred` | components/builder-api/src/http/handlers.rs:57 | the first primary address is the one selected |
| `Handlers.OpenSession` | components/builder-api/src/http/handlers.rs:57-74 | no usable email means ACCESS_DENIED `rg:auth:0` and no call; otherwise exactly one SessionCreate call with the token, the user's id and login, the selected email and the GitHub provider; 200 with the session exactly when that call succeeds; the mapped error exactly as the session service returned it when that call fails |
| `Handlers.SignIn` | components/builder-api/src/http/handlers.rs:50-86 | the user is read before the emails and the broker comes after both; a user error gives BAD_REMOTE_REPLY `rg:auth:1` on a JSON-decode error and BUG `rg:auth:2` otherwise; a failed or empty email list gives ACCESS_DENIED; the one SessionCreate is the third call; with the user found and a non-empty email list the SessionCreate is always sent; a failed SessionCreate gives the mapped error |
| `Handlers.HandleSessionCreate` | components/builder-api/src/http/handlers.rs:40-104 | missing `code` is a bare 400 with no call; authenticate comes first, then user, then emails. Auth errors give REMOTE_REJECTED with GitHub's text, JSON-decode errors give BAD_REMOTE_REPLY `rg:auth:1`, others BUG `rg:auth:0`/`rg:auth:2`. A failed or empty email list gives ACCESS_DENIED `rg:auth:0`. The one broker call is the fourth call and is a SessionCreate carrying the token, the user's id and login and the selected email. 200 exactly when it succeeds; a complete sign-in with a non-empty email list always makes that fourth call, and its failure gives the mapped error |
| `HandlerFacts.SignInWithoutEmailDenied` | components/builder-api/src/http/handlers.rs:53-62 | an account with no email is refused with access denied (500) and no broker call |
| `Handlers.HandleJobCreate` | components/builder-api/src/http/handlers.rs:106-132 | a missing body or a non-string `project_id` is a bare 400 with no call. A failed ProjectGet returns its mapped error and no JobSpec is sent. The only JobSpec is the second call, with owner = session id and project = the one ProjectGet returned. 201 with the job exactly when it succeeds, else the mapped error |
| `Handlers.HandleJobShow` | components/builder-api/src/http/handlers.rs:134-152 | no call exactly when `id` is missing or not a u64, and then a bare 400. Otherwise exactly one JobGet with the parsed id, and 200 with the job or the mapped error |
| `HandlerFacts.JobShowExamples` | components/builder-api/src/http/handlers.rs:134-152 | `/jobs/42` sends JobGet(42) and renders the job with 200; `/jobs/abc` is a bare 400 with no call; an entity-not-found reply is a 404 |
| `HandlerFacts.CanonicalJobIdReachesBroker` | components/builder-api/src/http/handlers.rs:136-147 | any u64 written in decimal, with or without a leading `+`, reaches JobGet unchanged |
| `Handlers.HandleListAccountInvitations` | components/builder-api/src/http/handlers.rs:191-200 | exactly one call, keyed by the session's account id; 200 with the list exactly when it succeeds, else the mapped error |
| `Handlers.HandleListUserOrigins` | components/builder-api/src/http/handlers.rs:202-211 | exactly one call, keyed by the session's account id; 200 with the list exactly when it succeeds, else the mapped error |
| `Handlers.HandleAcceptInvitation` | components/builder-api/src/http/handlers.rs:213-240 | no call exactly when `invitation_id` is missing or not a u64, and then a bare 400. Otherwise one request with accepting account = session id, invite id = the parsed id and ignore = false. 204 with no body exactly when it succeeds, else the mapped error |
| `HandlerFacts.AcceptingAccountIsTheSession` | components/builder-api/src/http/handlers.rs:232-235 | two requests naming the same invitation send the same accept request, stamped with the session's account |
| `Handlers.ParseProjectBody` | components/builder-api/src/http/handlers.rs:248-297 | failures are 400s without a content type; on success the form holds the body's `origin`, `plan_path`, `github.organization` and `github.repo` strings |
| `HandlerFacts.ProjectBodyFirstMissingField` | components/builder-api/src/http/handlers.rs:251-293 | fields are checked in the order origin, plan_path, github (an object), github.organization, github.repo; the first one missing or mistyped gives a 400 naming it, and nothing is called |
| `HandlerFacts.ProjectBodyAccepted` | components/builder-api/src/http/handlers.rs:248-297 | a body is accepted exactly when it supplies all five fields with the right JSON types |
| `HandlerFacts.ProjectCreateWithoutBody` | components/builder-api/src/http/handlers.rs:296 | a missing body is a bare 400 with no call |
| `Handlers.CreateFromPlanFile` | components/builder-api/src/http/handlers.rs:306-325 | a ProjectCreate is sent exactly when the contents decode from base64 and parse as a plan; its id is `<origin>/<plan name>`, owned by the session's account, with the body's plan path and the repository's clone URL; 201 with the created project exactly when that call succeeds; a failed ProjectCreate gives the mapped error |
| `Handlers.CreateForRepo` | components/builder-api/src/http/handlers.rs:298-325 | the origin is resolved first, then the plan file is fetched, and ProjectCreate can only be the third call; 201 exactly when it succeeds; a failed ProjectCreate gives the mapped error |
| `Handlers.HandleProjectCreate` | components/builder-api/src/http/handlers.rs:243-326 | the calls come in the order GitHub repo, OriginGet, GitHub contents, ProjectCreate; an invalid body makes no call; 201 with the created project exactly when ProjectCreate succeeds; a failed ProjectCreate gives the mapped error |
| `HandlerFacts.ProjectCreateOnlyAfterPrerequisites` | components/builder-api/src/http/handlers.rs:283-322 | ProjectCreate is sent exactly when the body, repo lookup, origin lookup, contents fetch, base64 decode and plan parse all succeed; the calls are then exactly the repo lookup with the body's organization and repo, OriginGet with the body's origin, the contents fetch of the body's plan path, and that ProjectCreate as the fourth and last call |
| `HandlerFacts.CreatedProjectFields` | components/builder-api/src/http/handlers.rs:259-326 | the created project has id = origin name + "/" + plan name, owner = session id, the body's plan path and the repository's clone URL |
| `HandlerFacts.RepoLookupFailure` | components/builder-api/src/http/handlers.rs:283-286 | a failed repo lookup is a 400 `rg:pc:1` after that single call |
| `HandlerFacts.OriginLookupFailure` | components/builder-api/src/http/handlers.rs:299-303 | a failed origin lookup returns the mapped error after the repo lookup and OriginGet, with no contents fetch |
| `HandlerFacts.PlanFailureTags` | components/builder-api/src/http/handlers.rs:304-320 | after the origin resolves, failed contents fetch, base64 decode and plan parse give 400 `rg:pc:2`, `rg:pc:4` and `rg:pc:3`, with no ProjectCreate |
| `Handlers.HandleProjectDelete` | components/builder-api/src/http/handlers.rs:329-348 | no call exactly when `id` is missing or its parse fails, and then a bare 400. Otherwise one ProjectDelete with the parsed id and requestor = session id. 204 with no body exactly when it succeeds, else the mapped error |
| `Handlers.HandleProjectUpdate` | components/builder-api/src/http/handlers.rs:351-373 | no call exactly when `id` is missing, and then a bare 400. Otherwise one ProjectUpdate with requestor = session id and a project carrying only that id. 204 with no body exactly when it succeeds, else the mapped error |
| `Handlers.HandleProjectShow` | components/builder-api/src/http/handlers.rs:376-393 | no call exactly when `id` is missing, and then a bare 400. Otherwise one ProjectGet with the id, and 200 with the project or the mapped error |
| `HandlerFacts.StringIdsOnlyMissingRejected` | components/builder-api/src/http/handlers.rs:356-387 | with an `id` present, project_show and project_update always make their one call, and so does project_delete when its id is text |
| `HandlerFacts.JobShowRejectsNonNumericId` | components/builder-api/src/http/handlers.rs:136-144 | in job_show, an `id` with a character that is neither a digit nor a leading `+` is a bare 400, and no call is made |
| `HandlerFacts.AcceptInvitationRejectsNonNumericId` | components/builder-api/src/http/handlers.rs:215-224 | in accept_invitation, the same holds for `invitation_id` |
| `HandlerFacts.ProjectDeleteRejectsNonNumericId` | components/builder-api/src/http/handlers.rs:332-340 | in project_delete with a numeric id, the same holds for `id` |
| `HandlerFacts.EveryHandlerMutatesAtMostOnce` | components/builder-api/src/http/handlers.rs:40-393 | every handler issues at most one mutating backend call; the read-only handlers issue none |
| `HandlerFacts.WellFormedMutatesAtMostOnce` | components/builder-api/src/http/handlers.rs:321-325 | a well-formed outcome holds at most one mutating call, and a 400 holds none |
| `Numbers.ParseU64` | components/builder-api/src/http/handlers.rs:138 | `parse::<u64>` succeeds exactly on an optional `+` followed by one or more ASCII digits whose value is below 2^64, and then yields that value (leading zeros allowed) |
| `Handlers.ParseAsText` | components/builder-api/src/http/handlers.rs:334 | an id parsed as a string never fails: every path text is accepted as its own id |
| `Handlers.ParseAsNumber` | components/builder-api/src/http/handlers.rs:334 | an id parsed as a number succeeds exactly when `parse::<u64>` does, and carries that number |
| `Json.Find` | components/builder-api/src/http/handlers.rs:111 | `find` yields a value exactly when the document is an object holding the key, and then the value stored under it |
| `Json.FindString` | components/builder-api/src/http/handlers.rs:251-277 | a field counts as present only when `find` yields a JSON string, and then its text is what the handler takes |
| `Http.Bare` | components/builder-api/src/http/handlers.rs:45 | `Response::with(status)`: the status alone, with no body and no Content-Type header |
| `Http.WithText` | components/builder-api/src/http/handlers.rs:291-292 | `Response::with((status, text))`: the status with a plain-text body and no Content-Type header |
| `Numbers.ParseU64OfDecimal` | components/builder-api/src/http/handlers.rs:218 | `parse::<u64>` reads back every u64 written in decimal, also with a leading `+` |
| `Numbers.ParseU64RejectsNonDigit` | components/builder-api/src/http/handlers.rs:218-220 | a non-digit character other than a leading `+` makes `parse::<u64>` fail |
| `Numbers.ParseU64RejectsOverflow` | components/builder-api/src/http/handlers.rs:218-220 | a value of 2^64 or more, written in decimal, makes `parse::<u64>` fail |
| `Numbers.DecimalReadsBack` | components/builder-api/src/http/handlers.rs:138 | the decimal rendering is all digits, reads back to its value and has no leading zero |

## Left out

- The `status` endpoint (`handlers.rs:157-159`): it always answers 200 and has nothing to state.
- Iron plumbing (`Request`, `Response` internals, the `Router` extension, `bodyparser`, `persistent::Read`). These become inputs. A body that is absent and a body that fails to parse are both `None`: every handler treats them alike (a bare 400).
- Session lookup: the `Authenticated` session is a parameter. A missing session panics on `unwrap()`, so it is a precondition by type, not an outcome.
- `Broker::connect(..).unwrap()` and the ZeroMQ transport. Connecting is taken to succeed. Each `conn.route` is an oracle returning `Result<Resp, NetError>`.
- The GitHub client (`authenticate`, `user`, `emails`, `repo`, `contents`) is network I/O. Each call's outcome, including its error class, is an oracle.
- `from_base64` and `Plan::from_bytes` are library parsers whose code is not part of this model. They are oracles that succeed or fail.
- JSON encoding (`to_json`, `json::encode`) and its `unwrap()`. A body `Json(p)` stands for the encoding of `p`. JSON numbers are integers: floating point is not modelled.
- `debug!` and `error!` logging.
- Message fields the handlers neither set nor read are not modelled. A field that is never set keeps its protobuf default (`Protocol.ProjectWithId`).
- Repeating a read: handlers are functions, so equal inputs and equal backend replies give equal outcomes. There is no separate lemma for this.
- `Handlers.HandleSessionCreate`, `Handlers.SignIn`, `Handlers.OpenSession`: on an account with no email it returns the access-denied error the comment at `handlers.rs:53-54` promises, instead of the panic of the code as written. See Findings.

## Findings

| source | as written | input that shows it | evidently intended | confidence | as-written member | corrected member |
|---|---|---|---|---|---|---|
| components/builder-api/src/http/handlers.rs:57 | `unwrap_or(&emails[0])` evaluates `emails[0]` eagerly, so an empty email list panics | GitHub's `emails` returns `Ok` with an empty list | the comment at :53-54 says an account without email gets an access-denied error, as in the `Err` branch at :60 (`ACCESS_DENIED`, `rg:auth:0`) | medium, not executed | `Handlers.ChooseEmailAsWritten` (shown by `HandlerFacts.EmptyEmailListPanicsAsWritten`) | `Handlers.SelectEmail` (used by `Handlers.HandleSessionCreate`; proved by `HandlerFacts.SignInWithoutEmailDenied`) |
