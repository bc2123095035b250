/** The GitHub host (github.go): the REST API root of a repository, GET
    requests with optional Basic authentication, the status codes the host
    tells apart, and the mapping of GitHub's issue and comment documents onto
    the host-independent records. HTTP is the function `fetch`; JSON decoding
    is the shape a response body decodes into. */
module GitHub {
  import opened Wrappers
  import opened Repo
  import Strs

  // ---------------------------------------------------------------------------
  // Wire types
  // ---------------------------------------------------------------------------

  datatype BasicAuth = BasicAuth(username: string, password: string)

  /** One GET request: the full URL and the Basic credentials, if any. */
  datatype Request = Request(url: string, basicAuth: Option<BasicAuth>)

  /** TGitHubUser. */
  datatype User = User(login: string, id: uint)

  /** The repository document (the JSON fields of TGitHubRepo). */
  datatype RepoDoc = RepoDoc(
    id: uint,
    name: string,
    fullName: string,
    owner: User,
    description: string,
    issuesUrl: string,
    issueCommentUrl: string,
    hasIssues: bool)

  /** TGitHubIssueLabel. */
  datatype LabelDoc = LabelDoc(id: uint, name: string, color: string)

  /** TGitHubIssue. */
  datatype IssueDoc = IssueDoc(
    id: uint,
    number: uint,
    title: string,
    user: User,
    assignees: seq<User>,
    htmlUrl: string,
    state: string,
    createdAt: Time,
    body: string,
    labels: seq<LabelDoc>)

  /** TGitHubIssueComment. */
  datatype CommentDoc = CommentDoc(id: uint, htmlUrl: string, body: string, user: User, createdAt: Time)

  /** A response body, as the document json.Unmarshal finds in it. */
  datatype Body =
    | RepoBody(repo: RepoDoc)
    | IssueListBody(issues: seq<IssueDoc>)
    | IssueBody(issue: IssueDoc)
    | CommentListBody(comments: seq<CommentDoc>)
    | Undecodable(reason: string)

  datatype Response = Response(status: int, rateLimitRemaining: string, body: Body)

  /** What the HTTP client makes of a request: a transport error or a response.
      `rateLimitRemaining` is the X-RateLimit-Remaining header, "" when absent. */
  datatype Reply = TransportFailure(reason: string) | Got(resp: Response)

  /** The network, as seen by http.Client.Do. */
  type Fetch = Request -> Reply

  const UnmarshalMismatch := "json: cannot unmarshal into the expected type"

  function DecodeRepo(b: Body): Result<RepoDoc, Error>
  {
    match b
    case RepoBody(d) => Ok(d)
    case Undecodable(m) => Err(ForeignError(m))
    case _ => Err(ForeignError(UnmarshalMismatch))
  }

  function DecodeIssueList(b: Body): Result<seq<IssueDoc>, Error>
  {
    match b
    case IssueListBody(ds) => Ok(ds)
    case Undecodable(m) => Err(ForeignError(m))
    case _ => Err(ForeignError(UnmarshalMismatch))
  }

  function DecodeIssue(b: Body): Result<IssueDoc, Error>
  {
    match b
    case IssueBody(d) => Ok(d)
    case Undecodable(m) => Err(ForeignError(m))
    case _ => Err(ForeignError(UnmarshalMismatch))
  }

  function DecodeCommentList(b: Body): Result<seq<CommentDoc>, Error>
  {
    match b
    case CommentListBody(ds) => Ok(ds)
    case Undecodable(m) => Err(ForeignError(m))
    case _ => Err(ForeignError(UnmarshalMismatch))
  }

  // ---------------------------------------------------------------------------
  // URLs and requests
  // ---------------------------------------------------------------------------

  const ApiRoot := "https://api.github.com/repos/"
  const PerPageSuffix := "?per_page=1000"
  const NumberTemplate := "{/number}"

  const AuthFailedMessage := "Authentication failed: wrong username and/or password"
  const NotFoundMessage := "Repository not found!"
  const RateLimitMessage := "Github API rate limit exceeded"
  const PermissionMessage := "Permission error!"

  /** The API URL of a repository, from its author and name. */
  function ApiUrl(author: string, name: string): (u: string)
    ensures Strs.StartsWith(u, ApiRoot)
    ensures u[|ApiRoot|..] == author + "/" + name
  {
    ApiRoot + author + "/" + name
  }

  /** buildGetRequest's request: every URL gets `?per_page=1000`, and Basic
      credentials go along only when there is an authentication record with a
      non-empty username. */
  function BuildGetRequest(url: string, auth: Option<Authentication>): (req: Request)
    ensures req.url == url + PerPageSuffix
    ensures req.basicAuth.Some? <==> auth.Some? && auth.value.username != ""
    ensures req.basicAuth.Some? ==>
      req.basicAuth.value == BasicAuth(auth.value.username, auth.value.password)
  {
    var basic := if auth.Some? && auth.value.username != ""
      then Some(BasicAuth(auth.value.username, auth.value.password))
      else None;
    Request(url + PerPageSuffix, basic)
  }

  /** buildGetRequest's outcome: a transport error is passed on, a 401 becomes
      the authentication error, any other status is handed back. */
  function Get(fetch: Fetch, url: string, auth: Option<Authentication>): (r: Result<Response, Error>)
    ensures var reply := fetch(BuildGetRequest(url, auth));
      && (reply.TransportFailure? ==> r == Err(ForeignError(reply.reason)))
      && (reply.Got? && reply.resp.status == 401 ==> r == Err(GithubRepoError(AuthFailedMessage)))
      && (reply.Got? && reply.resp.status != 401 ==> r == Ok(reply.resp))
  {
    match fetch(BuildGetRequest(url, auth))
    case TransportFailure(m) => Err(ForeignError(m))
    case Got(resp) =>
      if resp.status == 401 then Err(GithubRepoError(AuthFailedMessage)) else Ok(resp)
  }

  /** The issue-list URL: the first `{/number}` of the issues URL removed; an
      issues URL without the template is used as it is. */
  function ListUrl(issuesUrl: string): (u: string)
    ensures Strs.IndexOf(issuesUrl, NumberTemplate).None? ==> u == issuesUrl
    ensures Strs.IndexOf(issuesUrl, NumberTemplate).Some? ==>
      var i := Strs.IndexOf(issuesUrl, NumberTemplate).value;
      u == issuesUrl[..i] + issuesUrl[i + |NumberTemplate|..]
  {
    Strs.ReplacesFirstOccurrence(issuesUrl, NumberTemplate, "");
    Strs.ReplaceFirst(issuesUrl, NumberTemplate, "")
  }

  /** Go's "/" + strconv.Itoa(int(id)): a uint past 2^63 - 1 prints negative. */
  function NumberPath(id: uint): string
  {
    "/" + Strs.IntToString(Strs.Uint64ToInt(id))
  }

  /** The URL of one issue: the first `{/number}` replaced by `/N`; an issues
      URL without the template is used as it is. */
  function IssueUrl(issuesUrl: string, id: uint): (u: string)
    ensures Strs.IndexOf(issuesUrl, NumberTemplate).None? ==> u == issuesUrl
    ensures Strs.IndexOf(issuesUrl, NumberTemplate).Some? ==>
      var i := Strs.IndexOf(issuesUrl, NumberTemplate).value;
      u == issuesUrl[..i] + NumberPath(id) + issuesUrl[i + |NumberTemplate|..]
  {
    Strs.ReplacesFirstOccurrence(issuesUrl, NumberTemplate, NumberPath(id));
    Strs.ReplaceFirst(issuesUrl, NumberTemplate, NumberPath(id))
  }

  /** The URL of one issue's comments: the first `{/number}` replaced by
      `/N/comments`; an issues URL without the template is used as it is. */
  function CommentsUrl(issuesUrl: string, id: uint): (u: string)
    ensures Strs.IndexOf(issuesUrl, NumberTemplate).None? ==> u == issuesUrl
    ensures Strs.IndexOf(issuesUrl, NumberTemplate).Some? ==>
      var i := Strs.IndexOf(issuesUrl, NumberTemplate).value;
      u == issuesUrl[..i] + NumberPath(id) + "/comments" + issuesUrl[i + |NumberTemplate|..]
  {
    Strs.ReplacesFirstOccurrence(issuesUrl, NumberTemplate, NumberPath(id) + "/comments");
    Strs.ReplaceFirst(issuesUrl, NumberTemplate, NumberPath(id) + "/comments")
  }

  /** For an issues URL of the usual shape `base{/number}`, the three URLs are
      `base`, `base/N` and `base/N/comments`. */
  lemma TemplateUrls(base: string, id: uint)
    requires '{' !in base
    requires id < Strs.TwoTo63
    ensures ListUrl(base + NumberTemplate) == base
    ensures IssueUrl(base + NumberTemplate, id) == base + "/" + Strs.NatToString(id)
    ensures CommentsUrl(base + NumberTemplate, id) == base + "/" + Strs.NatToString(id) + "/comments"
  {
    Strs.ReplaceFirstAt(base, NumberTemplate, "", "");
    Strs.ReplaceFirstAt(base, NumberTemplate, "", NumberPath(id));
    Strs.ReplaceFirstAt(base, NumberTemplate, "", NumberPath(id) + "/comments");
    assert base + NumberTemplate == base + NumberTemplate + "";
  }

  // ---------------------------------------------------------------------------
  // Initialize
  // ---------------------------------------------------------------------------

  /** What Initialize makes of the repository `author/name`: the repository
      document, or the error. 401 anywhere is the authentication error; 404 is
      "not found"; 403 is the rate-limit error when X-RateLimit-Remaining is
      "0" and the permission error otherwise; any other status is decoded. No
      error it returns is a RepoConnectError. */
  function InitializeResult(author: string, name: string, auth: Option<Authentication>, fetch: Fetch)
    : (r: Result<RepoDoc, Error>)
    ensures r.Err? ==> !r.error.RepoConnectError?
    ensures var reply := fetch(BuildGetRequest(ApiUrl(author, name), auth));
      && (r.Ok? ==> reply.Got? && reply.resp.status !in {401, 403, 404} && reply.resp.body.RepoBody?)
      && (reply.Got? && reply.resp.status == 401 ==> r == Err(GithubRepoError(AuthFailedMessage)))
      && (reply.Got? && reply.resp.status == 404 ==> r == Err(GithubRepoError(NotFoundMessage)))
      && (reply.Got? && reply.resp.status == 403 ==>
            r == Err(GithubRepoError(
              if reply.resp.rateLimitRemaining == "0" then RateLimitMessage else PermissionMessage)))
  {
    var resp :- Get(fetch, ApiUrl(author, name), auth);
    if resp.status == 404 then Err(GithubRepoError(NotFoundMessage))
    else if resp.status == 403 then
      if resp.rateLimitRemaining == "0" then Err(GithubRepoError(RateLimitMessage))
      else Err(GithubRepoError(PermissionMessage))
    else DecodeRepo(resp.body)
  }

  // ---------------------------------------------------------------------------
  // Mapping GitHub documents onto issues and comments
  // ---------------------------------------------------------------------------

  /** The labels of an issue, in order, each with its colour decoded; Go panics
      on the first colour shorter than six characters. */
  function ToLabels(ls: seq<LabelDoc>): (r: Result<seq<IssueLabel>, Error>)
    ensures r.Ok? <==> forall k :: 0 <= k < |ls| ==> |ls[k].color| >= 6
    ensures r.Ok? ==>
      |r.value| == |ls| && forall k :: 0 <= k < |ls| ==> ColoredLabel(ls[k].name, ls[k].color) == Ok(r.value[k])
    ensures r.Err? ==> r.error == Panic(SliceOutOfRange)
  {
    if ls == [] then Ok([])
    else
      var head :- ColoredLabel(ls[0].name, ls[0].color);
      var tail :- ToLabels(ls[1..]);
      Ok([head] + tail)
  }

  function Logins(us: seq<User>): (r: seq<string>)
    ensures |r| == |us| && forall k :: 0 <= k < |us| ==> r[k] == us[k].login
  {
    seq(|us|, k requires 0 <= k < |us| => us[k].login)
  }

  /** One GitHub issue as a TIssue: the same id, number, title, URL, author,
      assignee logins in order and labels in order; closed exactly when the
      state is "closed". */
  function ToIssue(d: IssueDoc): (r: Result<Issue, Error>)
    ensures r.Ok? <==> ToLabels(d.labels).Ok?
    ensures r.Ok? ==>
      && r.value.id == d.id && r.value.number == d.number
      && r.value.name == d.title && r.value.url == d.htmlUrl
      && r.value.author == d.user.login
      && r.value.assignees == Logins(d.assignees)
      && r.value.labels == ToLabels(d.labels).value
      && r.value.creation == d.createdAt && r.value.content == d.body
      && (r.value.isClosed <==> d.state == "closed")
    ensures r.Err? ==> r.error == Panic(SliceOutOfRange)
  {
    var labels :- ToLabels(d.labels);
    Ok(Issue(d.id, d.number, d.title, d.htmlUrl, d.user.login, Logins(d.assignees),
             labels, d.createdAt, d.body, d.state == "closed"))
  }

  /** A list of GitHub issues, mapped one by one: same count, same order. */
  function ToIssues(ds: seq<IssueDoc>): (r: Result<seq<Issue>, Error>)
    ensures r.Ok? <==> forall k :: 0 <= k < |ds| ==> ToIssue(ds[k]).Ok?
    ensures r.Ok? ==> |r.value| == |ds| && forall k :: 0 <= k < |ds| ==> ToIssue(ds[k]) == Ok(r.value[k])
    ensures r.Err? ==> r.error == Panic(SliceOutOfRange)
  {
    if ds == [] then Ok([])
    else
      var head :- ToIssue(ds[0]);
      var tail :- ToIssues(ds[1..]);
      Ok([head] + tail)
  }

  function ToComment(c: CommentDoc): (r: IssueComment)
    ensures r.id == c.id && r.url == c.htmlUrl && r.author == c.user.login
    ensures r.creation == c.createdAt && r.content == c.body
  {
    IssueComment(c.id, c.htmlUrl, c.user.login, c.createdAt, c.body)
  }

  // ---------------------------------------------------------------------------
  // The three downloads, as functions of the repository document
  // ---------------------------------------------------------------------------

  /** DownloadAllIssues: (nil, nil) when the repository has no issue tracker,
      else one request to the issue-list URL (no filter is sent) and the
      decoded list mapped issue by issue. The status is not examined apart
      from 401; a transport error, the authentication error, a body that does
      not decode and a label panic are each passed on. */
  function AllIssuesResult(doc: RepoDoc, auth: Option<Authentication>, fetch: Fetch)
    : (r: Result<Option<seq<Issue>>, Error>)
    ensures !doc.hasIssues ==> r == Ok(None)
    ensures doc.hasIssues ==>
      var reply := fetch(BuildGetRequest(ListUrl(doc.issuesUrl), auth));
      && (reply.TransportFailure? ==> r == Err(ForeignError(reply.reason)))
      && (reply.Got? && reply.resp.status == 401 ==> r == Err(GithubRepoError(AuthFailedMessage)))
      && (reply.Got? && reply.resp.status != 401 && !reply.resp.body.IssueListBody? ==>
            r == Err(DecodeIssueList(reply.resp.body).error))
      && (reply.Got? && reply.resp.status != 401 && reply.resp.body.IssueListBody? ==>
            var mapped := ToIssues(reply.resp.body.issues);
            && (mapped.Ok? ==> r == Ok(Some(mapped.value)))
            && (mapped.Err? ==> r == Err(mapped.error)))
    ensures doc.hasIssues && r.Ok? ==>
      var reply := fetch(BuildGetRequest(ListUrl(doc.issuesUrl), auth));
      && reply.Got? && reply.resp.body.IssueListBody?
      && r.value.Some? && ToIssues(reply.resp.body.issues) == Ok(r.value.value)
  {
    if !doc.hasIssues then Ok(None)
    else
      var resp :- Get(fetch, ListUrl(doc.issuesUrl), auth);
      var docs :- DecodeIssueList(resp.body);
      var issues :- ToIssues(docs);
      Ok(Some(issues))
  }

  /** DownloadIssue: (nil, nil) with no issue tracker or on a 404; otherwise
      the decoded issue, mapped, with every error on the way passed on. */
  function IssueResult(doc: RepoDoc, auth: Option<Authentication>, fetch: Fetch, id: uint)
    : (r: Result<Option<Issue>, Error>)
    ensures var reply := fetch(BuildGetRequest(IssueUrl(doc.issuesUrl, id), auth));
      && (!doc.hasIssues ==> r == Ok(None))
      && (doc.hasIssues && reply.TransportFailure? ==> r == Err(ForeignError(reply.reason)))
      && (doc.hasIssues && reply.Got? && reply.resp.status == 401 ==> r == Err(GithubRepoError(AuthFailedMessage)))
      && (doc.hasIssues && reply.Got? && reply.resp.status == 404 ==> r == Ok(None))
      && (doc.hasIssues && reply.Got? && reply.resp.status !in {401, 404} && !reply.resp.body.IssueBody? ==>
            r == Err(DecodeIssue(reply.resp.body).error))
      && (doc.hasIssues && reply.Got? && reply.resp.status !in {401, 404} && reply.resp.body.IssueBody? ==>
            var mapped := ToIssue(reply.resp.body.issue);
            && (mapped.Ok? ==> r == Ok(Some(mapped.value)))
            && (mapped.Err? ==> r == Err(mapped.error)))
      && (doc.hasIssues && r.Ok? && r.value.Some? ==>
            reply.Got? && reply.resp.body.IssueBody? && ToIssue(reply.resp.body.issue) == Ok(r.value.value))
  {
    if !doc.hasIssues then Ok(None)
    else
      var resp :- Get(fetch, IssueUrl(doc.issuesUrl, id), auth);
      if resp.status == 404 then Ok(None)
      else
        var d :- DecodeIssue(resp.body);
        var issue :- ToIssue(d);
        Ok(Some(issue))
  }

  /** DownloadIssueComments: (nil, nil) with no issue tracker or on a 404;
      otherwise every decoded comment, mapped, in order, with every error on
      the way passed on. */
  function CommentsResult(doc: RepoDoc, auth: Option<Authentication>, fetch: Fetch, id: uint)
    : (r: Result<Option<seq<IssueComment>>, Error>)
    ensures var reply := fetch(BuildGetRequest(CommentsUrl(doc.issuesUrl, id), auth));
      && (!doc.hasIssues ==> r == Ok(None))
      && (doc.hasIssues && reply.TransportFailure? ==> r == Err(ForeignError(reply.reason)))
      && (doc.hasIssues && reply.Got? && reply.resp.status == 401 ==> r == Err(GithubRepoError(AuthFailedMessage)))
      && (doc.hasIssues && reply.Got? && reply.resp.status == 404 ==> r == Ok(None))
      && (doc.hasIssues && reply.Got? && reply.resp.status !in {401, 404} && !reply.resp.body.CommentListBody? ==>
            r == Err(DecodeCommentList(reply.resp.body).error))
      && (doc.hasIssues && reply.Got? && reply.resp.status !in {401, 404} && reply.resp.body.CommentListBody? ==>
            r.Ok? && r.value.Some?)
      && (doc.hasIssues && r.Ok? && r.value.Some? ==>
            reply.Got? && reply.resp.body.CommentListBody?
            && |r.value.value| == |reply.resp.body.comments|
            && forall k :: 0 <= k < |r.value.value| ==>
                 r.value.value[k] == ToComment(reply.resp.body.comments[k]))
  {
    if !doc.hasIssues then Ok(None)
    else
      var resp :- Get(fetch, CommentsUrl(doc.issuesUrl, id), auth);
      if resp.status == 404 then Ok(None)
      else
        var docs :- DecodeCommentList(resp.body);
        Ok(Some(seq(|docs|, k requires 0 <= k < |docs| => ToComment(docs[k]))))
  }

  // ---------------------------------------------------------------------------
  // The loops that build the records
  // ---------------------------------------------------------------------------

  /** The per-issue loops of github.go: assignee logins appended in order, then
      labels appended in order with their colours decoded. */
  method ConvertIssue(d: IssueDoc) returns (r: Result<Issue, Error>)
    ensures r == ToIssue(d)
  {
    var assignees: seq<string> := [];
    var i := 0;
    while i < |d.assignees|
      invariant 0 <= i <= |d.assignees|
      invariant assignees == Logins(d.assignees[..i])
    {
      assignees := assignees + [d.assignees[i].login];
      i := i + 1;
    }
    assert d.assignees[..i] == d.assignees;

    var labels: seq<IssueLabel> := [];
    var j := 0;
    while j < |d.labels|
      invariant 0 <= j <= |d.labels|
      invariant |labels| == j
      invariant forall k :: 0 <= k < j ==> ColoredLabel(d.labels[k].name, d.labels[k].color) == Ok(labels[k])
    {
      var colored := ColoredLabel(d.labels[j].name, d.labels[j].color);
      if colored.Err? {
        return Err(colored.error);
      }
      labels := labels + [colored.value];
      j := j + 1;
    }
    assert labels == ToLabels(d.labels).value;
    r := Ok(Issue(d.id, d.number, d.title, d.htmlUrl, d.user.login, assignees,
                  labels, d.createdAt, d.body, d.state == "closed"));
  }

  /** DownloadAllIssues' loop: a slice of len(ghissues) filled index by index. */
  method ConvertIssues(ds: seq<IssueDoc>) returns (r: Result<seq<Issue>, Error>)
    ensures r == ToIssues(ds)
  {
    var issues := new Issue[|ds|];
    for idx := 0 to |ds|
      invariant forall k :: 0 <= k < idx ==> ToIssue(ds[k]) == Ok(issues[k])
    {
      var issue := ConvertIssue(ds[idx]);
      if issue.Err? {
        return Err(issue.error);
      }
      issues[idx] := issue.value;
    }
    assert issues[..] == ToIssues(ds).value;
    r := Ok(issues[..]);
  }

  /** DownloadIssueComments' loop: a slice of len(ghcomments) filled index by index. */
  method ConvertComments(cs: seq<CommentDoc>) returns (r: seq<IssueComment>)
    ensures |r| == |cs| && forall k :: 0 <= k < |cs| ==> r[k] == ToComment(cs[k])
  {
    var comments := new IssueComment[|cs|];
    for idx := 0 to |cs|
      invariant forall k :: 0 <= k < idx ==> comments[k] == ToComment(cs[k])
    {
      comments[idx] := ToComment(cs[idx]);
    }
    r := comments[..];
  }

  // ---------------------------------------------------------------------------
  // The handler
  // ---------------------------------------------------------------------------

  /** TGitHubRepo as a handler: the repository document Initialize decoded into
      it, which the downloads then read. */
  class GitHubRepo {
    var id: uint
    var name: string
    var fullName: string
    var owner: User
    var description: string
    var issuesUrl: string
    var issueCommentUrl: string
    var hasIssues: bool

    function Doc(): RepoDoc
      reads this
    {
      RepoDoc(id, name, fullName, owner, description, issuesUrl, issueCommentUrl, hasIssues)
    }

    /** new(TGitHubRepo): every field at its zero value. */
    constructor ()
      ensures Doc() == RepoDoc(0, "", "", User("", 0), "", "", "", false)
    {
      id, name, fullName, owner := 0, "", "", User("", 0);
      description, issuesUrl, issueCommentUrl, hasIssues := "", "", "", false;
    }

    /** Initialize: on success the handler holds the decoded document, the
        repository's name and description are overwritten with GitHub's (its
        author, URLs and api_url stay as they were) and the API URL is
        returned. On failure nothing changes. */
    method Initialize(auth: Option<Authentication>, repo: Repository, fetch: Fetch)
      returns (r: Result<string, Error>)
      modifies this, repo
      ensures var res := InitializeResult(old(repo.author), old(repo.name), auth, fetch);
        && (r.Ok? <==> res.Ok?)
        && (r.Ok? ==>
              && r.value == ApiUrl(old(repo.author), old(repo.name))
              && Doc() == res.value
              && repo.State() == old(repo.State()).(name := res.value.name, desc := res.value.description))
        && (r.Err? ==> r.error == res.error && Doc() == old(Doc()) && repo.State() == old(repo.State()))
    {
      var apiUrl := ApiUrl(repo.author, repo.name);
      var resp := Get(fetch, apiUrl, auth);
      if resp.Err? {
        return Err(resp.error);
      }
      if resp.value.status == 404 {
        return Err(GithubRepoError(NotFoundMessage));
      }
      if resp.value.status == 403 {
        if resp.value.rateLimitRemaining == "0" {
          return Err(GithubRepoError(RateLimitMessage));
        } else {
          return Err(GithubRepoError(PermissionMessage));
        }
      }
      var doc := DecodeRepo(resp.value.body);
      if doc.Err? {
        return Err(doc.error);
      }
      id, name, fullName, owner := doc.value.id, doc.value.name, doc.value.fullName, doc.value.owner;
      description, issuesUrl := doc.value.description, doc.value.issuesUrl;
      issueCommentUrl, hasIssues := doc.value.issueCommentUrl, doc.value.hasIssues;
      repo.name := doc.value.name;
      repo.desc := doc.value.description;
      r := Ok(apiUrl);
    }

    method DownloadAllIssues(auth: Option<Authentication>, fetch: Fetch)
      returns (r: Result<Option<seq<Issue>>, Error>)
      ensures r == AllIssuesResult(Doc(), auth, fetch)
    {
      if !hasIssues {
        return Ok(None);
      }
      var resp := Get(fetch, ListUrl(issuesUrl), auth);
      if resp.Err? {
        return Err(resp.error);
      }
      var docs := DecodeIssueList(resp.value.body);
      if docs.Err? {
        return Err(docs.error);
      }
      var issues := ConvertIssues(docs.value);
      if issues.Err? {
        return Err(issues.error);
      }
      r := Ok(Some(issues.value));
    }

    method DownloadIssue(auth: Option<Authentication>, id: uint, fetch: Fetch)
      returns (r: Result<Option<Issue>, Error>)
      ensures r == IssueResult(Doc(), auth, fetch, id)
    {
      if !hasIssues {
        return Ok(None);
      }
      var resp := Get(fetch, IssueUrl(issuesUrl, id), auth);
      if resp.Err? {
        return Err(resp.error);
      }
      if resp.value.status == 404 {
        return Ok(None);
      }
      var d := DecodeIssue(resp.value.body);
      if d.Err? {
        return Err(d.error);
      }
      var issue := ConvertIssue(d.value);
      if issue.Err? {
        return Err(issue.error);
      }
      r := Ok(Some(issue.value));
    }

    method DownloadIssueComments(auth: Option<Authentication>, id: uint, fetch: Fetch)
      returns (r: Result<Option<seq<IssueComment>>, Error>)
      ensures r == CommentsResult(Doc(), auth, fetch, id)
    {
      if !hasIssues {
        return Ok(None);
      }
      var resp := Get(fetch, CommentsUrl(issuesUrl, id), auth);
      if resp.Err? {
        return Err(resp.error);
      }
      if resp.value.status == 404 {
        return Ok(None);
      }
      var docs := DecodeCommentList(resp.value.body);
      if docs.Err? {
        return Err(docs.error);
      }
      var comments := ConvertComments(docs.value);
      assert comments == seq(|docs.value|, k requires 0 <= k < |docs.value| => ToComment(docs.value[k]));
      r := Ok(Some(comments));
    }
  }
}
