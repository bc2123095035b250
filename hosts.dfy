/** TRepoHost (repo.go): the operations every issue host offers. The interface
    has exactly two implementations, so it is modelled as a datatype with one
    variant per host, and each operation dispatches on the variant. */
module Hosts {
  import opened Wrappers
  import opened Repo
  import GitHub
  import GitLab

  /** A host handler, as returned by the host resolver. */
  datatype RepoHost = GitHubHost(gh: GitHub.GitHubRepo) | GitLabHost(gl: GitLab.GitLabRepo)
  {
    function Objects(): set<object>
    {
      if GitHubHost? then {gh} else {gl}
    }

    /** A GitLab handler is usable once Initialize has stored its client and
        project; a GitHub handler reads only its own fields. */
    predicate Ready()
      reads Objects()
    {
      GitLabHost? ==> gl.Ready()
    }

    /** What a ready handler's downloads depend on. */
    function Data(): (d: HostData)
      requires Ready()
      reads Objects()
      ensures d.OnGitHubDoc? <==> GitHubHost?
    {
      match this
      case GitHubHost(gh) => OnGitHubDoc(gh.Doc())
      case GitLabHost(gl) => OnGitLabProject(gl.client.value, gl.project.value)
    }
  }

  /** The contents of a ready handler: GitHub's repository document, or the
      GitLab client and project. */
  datatype HostData =
    | OnGitHubDoc(doc: GitHub.RepoDoc)
    | OnGitLabProject(client: GitLab.Client, project: GitLab.Project)

  /** Everything the hosts reach over the network. */
  datatype Network = Network(fetch: GitHub.Fetch, gitlab: GitLab.Api)

  /** DownloadAllIssues of a host with contents `d`. */
  function AllIssuesOf(d: HostData, auth: Option<Authentication>, f: IssueFilter, net: Network)
    : Result<Option<seq<Issue>>, Error>
  {
    match d
    case OnGitHubDoc(doc) => GitHub.AllIssuesResult(doc, auth, net.fetch)
    case OnGitLabProject(c, p) => GitLab.AllIssuesResult(c, p.id, f, net.gitlab)
  }

  /** DownloadIssue of a host with contents `d`. */
  function OneIssueOf(d: HostData, auth: Option<Authentication>, id: uint, net: Network)
    : Result<Option<Issue>, Error>
  {
    match d
    case OnGitHubDoc(doc) => GitHub.IssueResult(doc, auth, net.fetch, id)
    case OnGitLabProject(c, p) => GitLab.IssueResult(c, p.id, id, net.gitlab)
  }

  /** DownloadIssueComments of a host with contents `d`. */
  function CommentsOf(d: HostData, auth: Option<Authentication>, id: uint, net: Network)
    : Result<Option<seq<IssueComment>>, Error>
  {
    match d
    case OnGitHubDoc(doc) => GitHub.CommentsResult(doc, auth, net.fetch, id)
    case OnGitLabProject(_, _) => Ok(None)
  }

  /** DownloadAllIssues through the interface. */
  function AllIssues(h: RepoHost, auth: Option<Authentication>, f: IssueFilter, net: Network)
    : Result<Option<seq<Issue>>, Error>
    requires h.Ready()
    reads h.Objects()
  {
    AllIssuesOf(h.Data(), auth, f, net)
  }

  /** DownloadIssue through the interface. */
  function OneIssue(h: RepoHost, auth: Option<Authentication>, id: uint, net: Network)
    : Result<Option<Issue>, Error>
    requires h.Ready()
    reads h.Objects()
  {
    OneIssueOf(h.Data(), auth, id, net)
  }

  /** DownloadIssueComments through the interface. */
  function Comments(h: RepoHost, auth: Option<Authentication>, id: uint, net: Network)
    : Result<Option<seq<IssueComment>>, Error>
    requires h.Ready()
    reads h.Objects()
  {
    CommentsOf(h.Data(), auth, id, net)
  }

  /** The GitHub handler takes no filter: whatever is asked for, the same list
      comes back. */
  lemma GitHubIgnoresFilter(h: RepoHost, auth: Option<Authentication>, f: IssueFilter, g: IssueFilter, net: Network)
    requires h.GitHubHost?
    ensures AllIssues(h, auth, f, net) == AllIssues(h, auth, g, net)
  {
  }

  /** Of the filter, the GitLab handler sends only the labels and the states:
      the assignee and creator criteria change nothing. */
  lemma GitLabIgnoresPeople(h: RepoHost, auth: Option<Authentication>, f: IssueFilter,
                            assignee: Option<string>, creator: Option<string>, net: Network)
    requires h.GitLabHost? && h.Ready()
    ensures AllIssues(h, auth, f.(assignee := assignee, creator := creator), net) == AllIssues(h, auth, f, net)
  {
    GitLab.OptionsIgnorePeople(f, assignee, creator);
  }

  /** The interface promises a nil list (with a nil error) when there are no
      issues; the GitLab handler never returns a nil list, the GitHub handler
      only when the repository has no issue tracker. */
  lemma NilListOnlyWithoutTracker(h: RepoHost, auth: Option<Authentication>, f: IssueFilter, net: Network)
    requires h.Ready()
    ensures AllIssues(h, auth, f, net) == Ok(None) ==> h.GitHubHost? && !h.gh.hasIssues
  {
  }

  /** Comments are never fetched from GitLab. */
  lemma GitLabHasNoComments(h: RepoHost, auth: Option<Authentication>, id: uint, net: Network)
    requires h.GitLabHost? && h.Ready()
    ensures Comments(h, auth, id, net) == Ok(None)
  {
  }

  method DownloadAllIssues(h: RepoHost, auth: Option<Authentication>, f: IssueFilter, net: Network)
    returns (r: Result<Option<seq<Issue>>, Error>)
    requires h.Ready()
    ensures r == AllIssues(h, auth, f, net)
  {
    match h
    case GitHubHost(gh) =>
      r := gh.DownloadAllIssues(auth, net.fetch);
    case GitLabHost(gl) =>
      r := gl.DownloadAllIssues(auth, f, net.gitlab);
  }

  method DownloadIssue(h: RepoHost, auth: Option<Authentication>, id: uint, net: Network)
    returns (r: Result<Option<Issue>, Error>)
    requires h.Ready()
    ensures r == OneIssue(h, auth, id, net)
  {
    match h
    case GitHubHost(gh) =>
      r := gh.DownloadIssue(auth, id, net.fetch);
    case GitLabHost(gl) =>
      r := gl.DownloadIssue(auth, id, net.gitlab);
  }

  method DownloadIssueComments(h: RepoHost, auth: Option<Authentication>, id: uint, net: Network)
    returns (r: Result<Option<seq<IssueComment>>, Error>)
    requires h.Ready()
    ensures r == Comments(h, auth, id, net)
  {
    match h
    case GitHubHost(gh) =>
      r := gh.DownloadIssueComments(auth, id, net.fetch);
    case GitLabHost(gl) =>
      r := gl.DownloadIssueComments(auth, id, net.gitlab);
  }
}
