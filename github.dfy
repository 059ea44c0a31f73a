/**
 * The GitHub API client the handlers consult. Its calls are network I/O, so
 * each is an oracle: a function from the call's arguments to the outcome the
 * remote side returns, including the error class (`hab_net::Error`).
 */
module GitHub {
  import opened Wrappers
  import opened Numbers

  /** The error classes the handlers distinguish: `Auth(e)`, `JsonDecode(_)`, everything else. */
  datatype GitHubError = Auth(error: string) | JsonDecode | OtherError

  datatype User = User(id: uint64, login: string)

  datatype Email = Email(email: string, primary: bool)

  datatype Repo = Repo(cloneUrl: string)

  /** A file fetched through the contents API: its body, base64-encoded. */
  datatype Contents = Contents(content: string)

  datatype GitHubCli = GitHubCli(
    authenticate: string -> Result<string, GitHubError>,
    user: string -> Result<User, GitHubError>,
    emails: string -> Result<seq<Email>, GitHubError>,
    repo: (string, string, string) -> Result<Repo, GitHubError>,
    contents: (string, string, string, string) -> Result<Contents, GitHubError>)
}
