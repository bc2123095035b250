/** The GitLab host (gitlab.go), reached through the go-gitlab client library.
    The three library calls used (GetProject, ListLabels, ListProjectIssues)
    are the functions of an `Api` value; their failures arrive as messages. */
module GitLab {
  import opened Wrappers
  import opened Repo
  import Strs

  // ---------------------------------------------------------------------------
  // The client library's types, as far as they are read
  // ---------------------------------------------------------------------------

  /** gitlab.NewClient(nil, token): the client is known by its token. */
  datatype Client = Client(token: string)

  /** A go-gitlab user (project owner, issue author or assignee): only Name is read. */
  datatype User = User(name: string)

  /** gitlab.Project. A nil Owner is `None`. */
  datatype Project = Project(
    id: int,
    name: string,
    description: string,
    owner: Option<User>,
    webUrl: string,
    sshUrlToRepo: string)

  /** gitlab.Label. */
  datatype LabelDoc = LabelDoc(name: string, color: string)

  /** gitlab.Issue. Labels are names only; their colours come from the project.
      The author and the creation time are pointers in the library: nil is `None`. */
  datatype IssueDoc = IssueDoc(
    id: int,
    iid: int,
    title: string,
    webUrl: string,
    author: Option<User>,
    assignees: seq<User>,
    labels: seq<string>,
    createdAt: Option<Time>,
    description: string,
    state: string)

  /** gitlab.ListProjectIssuesOptions, the fields that are set. */
  datatype ListOptions = ListOptions(
    page: int,
    perPage: int,
    labels: Option<seq<string>>,
    state: Option<string>,
    iids: Option<seq<int>>)

  /** The go-gitlab calls, as functions of their arguments. */
  datatype Api = Api(
    getProject: (Client, string) -> Result<Project, string>,
    listLabels: (Client, int) -> Result<seq<LabelDoc>, string>,
    listProjectIssues: (Client, int, ListOptions) -> Result<seq<IssueDoc>, string>)

  function Foreign<T>(r: Result<T, string>): (f: Result<T, Error>)
    ensures f.Ok? <==> r.Ok?
    ensures f.Ok? ==> f.value == r.value
    ensures f.Err? ==> f.error == ForeignError(r.error)
  {
    match r
    case Ok(v) => Ok(v)
    case Err(m) => Err(ForeignError(m))
  }

  // ---------------------------------------------------------------------------
  // Initialize
  // ---------------------------------------------------------------------------

  /** The access token handed to the client: the authentication record's token
      when there is one (the code's test for an empty token changes nothing,
      since the fallback is the empty string as well), else "". */
  function Token(auth: Option<Authentication>): (t: string)
    ensures t == (if auth.Some? then auth.value.token else "")
  {
    if auth.Some? && auth.value.token != "" then auth.value.token else ""
  }

  /** The project path GetProject is asked for. */
  function ProjectPath(author: string, name: string): (p: string)
    ensures |p| == |author| + 1 + |name|
    ensures p[..|author|] == author && p[|author|] == '/' && p[|author| + 1..] == name
  {
    author + "/" + name
  }

  function OwnerName(p: Project): (n: string)
    ensures p.owner.Some? ==> n == p.owner.value.name
    ensures p.owner.None? ==> n == ""
  {
    if p.owner.Some? then p.owner.value.name else ""
  }

  /** The project Initialize looks up for `author/name`, or the library's error.
      A GitLab error is never a RepoConnectError. */
  function ProjectResult(auth: Option<Authentication>, author: string, name: string, api: Api)
    : (r: Result<Project, Error>)
    ensures r.Err? ==> r.error.ForeignError?
    ensures r.Ok? <==> api.getProject(Client(Token(auth)), ProjectPath(author, name)).Ok?
    ensures r.Ok? ==> r.value == api.getProject(Client(Token(auth)), ProjectPath(author, name)).value
  {
    Foreign(api.getProject(Client(Token(auth)), ProjectPath(author, name)))
  }

  // ---------------------------------------------------------------------------
  // Label colours and issue mapping
  // ---------------------------------------------------------------------------

  /** getLabels' map: label name to colour text; a name listed twice keeps the
      colour listed last. */
  function LabelColors(ls: seq<LabelDoc>): (m: map<string, string>)
    ensures m.Keys == set k | 0 <= k < |ls| :: ls[k].name
    decreases |ls|
  {
    if ls == [] then map[]
    else LabelColors(ls[..|ls| - 1])[ls[|ls| - 1].name := ls[|ls| - 1].color]
  }

  /** A label's colour is the one of its last listing. */
  lemma {:induction false} LastColorWins(ls: seq<LabelDoc>, k: nat)
    requires k < |ls|
    requires forall j :: k < j < |ls| ==> ls[j].name != ls[k].name
    ensures LabelColors(ls)[ls[k].name] == ls[k].color
    decreases |ls|
  {
    if k < |ls| - 1 {
      LastColorWins(ls[..|ls| - 1], k);
    }
  }

  /** The labels request, made with the handler's client for its project. */
  function LabelsResult(c: Client, pid: int, api: Api): (r: Result<map<string, string>, Error>)
    ensures api.listLabels(c, pid).Err? ==> r == Err(ForeignError(api.listLabels(c, pid).error))
    ensures api.listLabels(c, pid).Ok? ==> r == Ok(LabelColors(api.listLabels(c, pid).value))
  {
    var ls :- Foreign(api.listLabels(c, pid));
    Ok(LabelColors(ls))
  }

  /** One label of an issue: its colour is the project's colour text for that
      name with the first character (the '#') dropped, decoded as `rrggbb`. A
      name missing from the map reads as "", and slicing "" from 1 panics, as
      does colour text shorter than seven characters. */
  function LabelFor(name: string, colors: map<string, string>): (r: Result<IssueLabel, Error>)
    ensures r.Ok? <==> name in colors && |colors[name]| >= 7
    ensures r.Ok? ==>
      r.value.name == name
      && DecodeColor(colors[name][1..]) == Some((r.value.colorR, r.value.colorG, r.value.colorB))
    ensures r.Err? ==> r.error == Panic(SliceOutOfRange)
  {
    var entry := if name in colors then colors[name] else "";
    if |entry| < 1 then Err(Panic(SliceOutOfRange))
    else ColoredLabel(name, entry[1..])
  }

  /** `#ff0000` is red. */
  lemma LabelForExample()
    ensures LabelFor("bug", map["bug" := "#ff0000"]) == Ok(IssueLabel("bug", 255, 0, 0))
  {
    var hex := "#ff0000"[1..];
    assert hex == "ff0000";
    assert hex[0..2] == "ff" && hex[2..4] == "00" && hex[4..6] == "00";
    assert Strs.ParseHexPair("ff") == 255 && Strs.ParseHexPair("00") == 0;
  }

  function ToLabels(names: seq<string>, colors: map<string, string>): (r: Result<seq<IssueLabel>, Error>)
    ensures r.Ok? <==> forall k :: 0 <= k < |names| ==> LabelFor(names[k], colors).Ok?
    ensures r.Ok? ==>
      |r.value| == |names| && forall k :: 0 <= k < |names| ==> LabelFor(names[k], colors) == Ok(r.value[k])
    ensures r.Err? ==> r.error == Panic(SliceOutOfRange)
  {
    if names == [] then Ok([])
    else
      var head :- LabelFor(names[0], colors);
      var tail :- ToLabels(names[1..], colors);
      Ok([head] + tail)
  }

  function Names(us: seq<User>): (r: seq<string>)
    ensures |r| == |us| && forall k :: 0 <= k < |us| ==> r[k] == us[k].name
  {
    seq(|us|, k requires 0 <= k < |us| => us[k].name)
  }

  /** One GitLab issue as a TIssue: `number` is the project-local IID and `id`
      the global ID (both read as uint), the author and assignees by display
      name in order, the labels in order; closed exactly when the state is
      "closed". The labels are decoded first, so a label panic comes before
      the nil-pointer panic of a missing author or creation time. */
  function ToIssue(d: IssueDoc, colors: map<string, string>): (r: Result<Issue, Error>)
    ensures r.Ok? <==> ToLabels(d.labels, colors).Ok? && d.author.Some? && d.createdAt.Some?
    ensures ToLabels(d.labels, colors).Err? ==> r == Err(Panic(SliceOutOfRange))
    ensures ToLabels(d.labels, colors).Ok? && (d.author.None? || d.createdAt.None?) ==>
      r == Err(Panic(NilDereference))
    ensures r.Ok? ==>
      && r.value.id == Strs.IntToUint64(d.id) && r.value.number == Strs.IntToUint64(d.iid)
      && r.value.name == d.title && r.value.url == d.webUrl
      && r.value.author == d.author.value.name
      && r.value.assignees == Names(d.assignees)
      && r.value.labels == ToLabels(d.labels, colors).value
      && r.value.creation == d.createdAt.value && r.value.content == d.description
      && (r.value.isClosed <==> d.state == "closed")
  {
    var labels :- ToLabels(d.labels, colors);
    if d.author.None? || d.createdAt.None? then Err(Panic(NilDereference))
    else
      Ok(Issue(Strs.IntToUint64(d.id), Strs.IntToUint64(d.iid), d.title, d.webUrl, d.author.value.name,
               Names(d.assignees), labels, d.createdAt.value, d.description, d.state == "closed"))
  }

  /** Every issue mapped in order; the first failing issue's panic stops the
      listing. */
  function ToIssues(ds: seq<IssueDoc>, colors: map<string, string>): (r: Result<seq<Issue>, Error>)
    ensures r.Ok? <==> forall k :: 0 <= k < |ds| ==> ToIssue(ds[k], colors).Ok?
    ensures r.Ok? ==>
      |r.value| == |ds| && forall k :: 0 <= k < |ds| ==> ToIssue(ds[k], colors) == Ok(r.value[k])
    ensures r.Err? ==> r.error == Panic(SliceOutOfRange) || r.error == Panic(NilDereference)
    ensures |ds| > 0 && ToIssue(ds[0], colors).Err? ==> r == Err(ToIssue(ds[0], colors).error)
  {
    if ds == [] then Ok([])
    else
      var head :- ToIssue(ds[0], colors);
      var tail :- ToIssues(ds[1..], colors);
      Ok([head] + tail)
  }

  /** The listing fails with the panic of its first failing issue. */
  lemma {:induction false} FirstFailureStops(ds: seq<IssueDoc>, colors: map<string, string>, idx: nat)
    requires idx < |ds| && ToIssue(ds[idx], colors).Err?
    requires forall k :: 0 <= k < idx ==> ToIssue(ds[k], colors).Ok?
    ensures ToIssues(ds, colors) == Err(ToIssue(ds[idx], colors).error)
  {
    if idx > 0 {
      assert ToIssue(ds[0], colors).Ok?;
      assert forall k :: 0 <= k < idx - 1 ==> ds[1..][k] == ds[k + 1];
      FirstFailureStops(ds[1..], colors, idx - 1);
    }
  }

  // ---------------------------------------------------------------------------
  // Filter translation and the downloads, as functions
  // ---------------------------------------------------------------------------

  /** The state option: "opened" for open issues only, "closed" for closed
      ones only, unset when both or neither are asked for. */
  function StateOption(f: IssueFilter): (s: Option<string>)
    ensures s == Some("opened") <==> f.getOpen && !f.getClosed
    ensures s == Some("closed") <==> !f.getOpen && f.getClosed
    ensures s.None? <==> f.getOpen == f.getClosed
  {
    if f.getOpen && !f.getClosed then Some("opened")
    else if !f.getOpen && f.getClosed then Some("closed")
    else None
  }

  /** The labels option: the filter's label names in filter order, present only
      when the filter has a label list. */
  function LabelOption(f: IssueFilter): (ls: Option<seq<string>>)
    ensures ls.Some? <==> f.labels.Some?
    ensures ls.Some? ==>
      |ls.value| == |f.labels.value| && forall k :: 0 <= k < |ls.value| ==> ls.value[k] == f.labels.value[k].name
  {
    match f.labels
    case None => None
    case Some(labels) => Some(seq(|labels|, k requires 0 <= k < |labels| => labels[k].name))
  }

  /** The options of the issue listing: page 1 of up to 1000 issues, with the
      label and state options; no IIDs. */
  function IssueListOptions(f: IssueFilter): (o: ListOptions)
    ensures o.page == 1 && o.perPage == 1000 && o.iids.None?
    ensures o.labels == LabelOption(f) && o.state == StateOption(f)
  {
    ListOptions(1, 1000, LabelOption(f), StateOption(f), None)
  }

  /** Which issues GitLab's issue listing returns for the options: those in
      the requested state ("opened" or "closed"; every state when unset) that
      carry every requested label. */
  predicate ListingSelects(o: ListOptions, i: Issue)
  {
    && (o.state.Some? ==> o.state.value == (if i.isClosed then "closed" else "opened"))
    && (o.labels.Some? ==> forall k :: 0 <= k < |o.labels.value| ==> HasLabel(i, o.labels.value[k]))
  }

  /** Without assignee or creator criteria, and with at least one state asked
      for, the listing GitLab is asked for selects exactly the issues the
      filter admits. */
  lemma ListingSelectsAdmitted(f: IssueFilter, i: Issue)
    requires f.assignee.None? && f.creator.None?
    requires f.getOpen || f.getClosed
    ensures ListingSelects(IssueListOptions(f), i) <==> Admits(f, i)
  {
    var o := IssueListOptions(f);
    assert o.state.Some? ==> (o.state.value == (if i.isClosed then "closed" else "opened")
                              <==> (if i.isClosed then f.getClosed else f.getOpen));
    assert o.state.None? ==> f.getOpen && f.getClosed;
    if f.labels.Some? {
      LabelNamesCarried(f.labels.value, o.labels.value, i);
    }
  }

  /** Requiring every name of `names` is requiring every label of `ls` when the
      names are the labels' names, in order. */
  lemma LabelNamesCarried(ls: seq<IssueLabel>, names: seq<string>, i: Issue)
    requires |names| == |ls| && forall k :: 0 <= k < |names| ==> names[k] == ls[k].name
    ensures (forall k :: 0 <= k < |names| ==> HasLabel(i, names[k]))
        <==> (forall k :: 0 <= k < |ls| ==> HasLabel(i, ls[k].name))
  {
  }

  /** The assignee and creator criteria are never read. */
  lemma {:induction false} OptionsIgnorePeople(f: IssueFilter, assignee: Option<string>, creator: Option<string>)
    ensures IssueListOptions(f.(assignee := assignee, creator := creator)) == IssueListOptions(f)
  {
    var g := f.(assignee := assignee, creator := creator);
    assert g.labels == f.labels && g.getOpen == f.getOpen && g.getClosed == f.getClosed;
  }

  /** The filter `labels=bug`, open issues only, becomes Labels ["bug"] and
      State "opened". */
  lemma OptionsExample()
    ensures IssueListOptions(IssueFilter(Some([IssueLabel("bug", 0, 0, 0)]), None, true, false, None))
      == ListOptions(1, 1000, Some(["bug"]), Some("opened"), None)
  {
    var f := IssueFilter(Some([IssueLabel("bug", 0, 0, 0)]), None, true, false, None);
    assert LabelOption(f).value == ["bug"];
  }

  /** DownloadAllIssues: the label colours first (their error stops
      everything before any issue is requested), then one listing with the
      translated filter, every issue mapped in order. The list is never nil. */
  function AllIssuesResult(c: Client, pid: int, f: IssueFilter, api: Api)
    : (r: Result<Option<seq<Issue>>, Error>)
    ensures r.Ok? ==> r.value.Some?
    ensures api.listLabels(c, pid).Err? ==> r == Err(ForeignError(api.listLabels(c, pid).error))
    ensures api.listLabels(c, pid).Ok? ==>
      var listed := api.listProjectIssues(c, pid, IssueListOptions(f));
      && (listed.Err? ==> r == Err(ForeignError(listed.error)))
      && (listed.Ok? ==>
            var mapped := ToIssues(listed.value, LabelColors(api.listLabels(c, pid).value));
            && (mapped.Ok? ==> r == Ok(Some(mapped.value)))
            && (mapped.Err? ==> r == Err(mapped.error)))
    ensures r.Ok? ==>
      && api.listLabels(c, pid).Ok?
      && api.listProjectIssues(c, pid, IssueListOptions(f)).Ok?
      && ToIssues(api.listProjectIssues(c, pid, IssueListOptions(f)).value,
                  LabelColors(api.listLabels(c, pid).value)) == Ok(r.value.value)
  {
    var colors :- LabelsResult(c, pid, api);
    var docs :- Foreign(api.listProjectIssues(c, pid, IssueListOptions(f)));
    var issues :- ToIssues(docs, colors);
    Ok(Some(issues))
  }

  /** The options of a single-issue lookup: page 1, up to 1000, IIDs [n]. */
  function IssueLookupOptions(id: uint): (o: ListOptions)
    ensures o.page == 1 && o.perPage == 1000 && o.labels.None? && o.state.None?
    ensures o.iids.Some? && |o.iids.value| == 1
    ensures Strs.IntToUint64(o.iids.value[0]) == id
  {
    ListOptions(1, 1000, None, None, Some([Strs.Uint64ToInt(id)]))
  }

  /** DownloadIssue: the issue with IID `id` is looked up by listing with that
      IID (GitLab's own id is a different number); no result is (nil, nil);
      otherwise the label colours are fetched and the first result is mapped. */
  function IssueResult(c: Client, pid: int, id: uint, api: Api): (r: Result<Option<Issue>, Error>)
    ensures var listed := api.listProjectIssues(c, pid, IssueLookupOptions(id));
      && (listed.Err? ==> r == Err(ForeignError(listed.error)))
      && (listed.Ok? && listed.value == [] ==> r == Ok(None))
      && (listed.Ok? && listed.value != [] && api.listLabels(c, pid).Err? ==>
            r == Err(ForeignError(api.listLabels(c, pid).error)))
      && (listed.Ok? && listed.value != [] && api.listLabels(c, pid).Ok? ==>
            var mapped := ToIssue(listed.value[0], LabelColors(api.listLabels(c, pid).value));
            && (mapped.Ok? ==> r == Ok(Some(mapped.value)))
            && (mapped.Err? ==> r == Err(mapped.error)))
      && (r.Ok? && r.value.Some? ==>
            listed.Ok? && listed.value != [] && api.listLabels(c, pid).Ok?
            && ToIssue(listed.value[0], LabelColors(api.listLabels(c, pid).value)) == Ok(r.value.value))
  {
    var docs :- Foreign(api.listProjectIssues(c, pid, IssueLookupOptions(id)));
    if |docs| == 0 then Ok(None)
    else
      var colors :- LabelsResult(c, pid, api);
      var issue :- ToIssue(docs[0], colors);
      Ok(Some(issue))
  }

  // ---------------------------------------------------------------------------
  // The loops
  // ---------------------------------------------------------------------------

  /** getLabels' loop: the map filled one label at a time. */
  method FillLabelColors(ls: seq<LabelDoc>) returns (colors: map<string, string>)
    ensures colors == LabelColors(ls)
  {
    colors := map[];
    for i := 0 to |ls|
      invariant colors == LabelColors(ls[..i])
    {
      assert ls[..i + 1][..i] == ls[..i];
      colors := colors[ls[i].name := ls[i].color];
    }
    assert ls[..|ls|] == ls;
  }

  /** The per-issue loops of gitlab.go: assignee names appended, then labels
      appended with their colours looked up and decoded. */
  method ConvertIssue(d: IssueDoc, colors: map<string, string>) returns (r: Result<Issue, Error>)
    ensures r == ToIssue(d, colors)
  {
    var assignees: seq<string> := [];
    for i := 0 to |d.assignees|
      invariant assignees == Names(d.assignees[..i])
    {
      assignees := assignees + [d.assignees[i].name];
    }
    assert d.assignees[..|d.assignees|] == d.assignees;

    var labels: seq<IssueLabel> := [];
    for j := 0 to |d.labels|
      invariant |labels| == j
      invariant forall k :: 0 <= k < j ==> LabelFor(d.labels[k], colors) == Ok(labels[k])
    {
      var colored := LabelFor(d.labels[j], colors);
      if colored.Err? {
        return Err(colored.error);
      }
      labels := labels + [colored.value];
    }
    assert labels == ToLabels(d.labels, colors).value;
    if d.author.None? || d.createdAt.None? {
      return Err(Panic(NilDereference));
    }
    r := Ok(Issue(Strs.IntToUint64(d.id), Strs.IntToUint64(d.iid), d.title, d.webUrl, d.author.value.name,
                  assignees, labels, d.createdAt.value, d.description, d.state == "closed"));
  }

  /** DownloadAllIssues' loop: issues appended one by one. */
  method ConvertIssues(ds: seq<IssueDoc>, colors: map<string, string>) returns (r: Result<seq<Issue>, Error>)
    ensures r == ToIssues(ds, colors)
  {
    var issues: seq<Issue> := [];
    for idx := 0 to |ds|
      invariant |issues| == idx
      invariant forall k :: 0 <= k < idx ==> ToIssue(ds[k], colors) == Ok(issues[k])
    {
      var issue := ConvertIssue(ds[idx], colors);
      if issue.Err? {
        FirstFailureStops(ds, colors, idx);
        return Err(issue.error);
      }
      issues := issues + [issue.value];
    }
    assert issues == ToIssues(ds, colors).value;
    r := Ok(issues);
  }

  // ---------------------------------------------------------------------------
  // The handler
  // ---------------------------------------------------------------------------

  /** TGitLabRepo: the client and the project, both nil until Initialize succeeds. */
  class GitLabRepo {
    var client: Option<Client>
    var project: Option<Project>

    predicate Ready()
      reads this
    {
      client.Some? && project.Some?
    }

    constructor ()
      ensures client.None? && project.None?
    {
      client, project := None, None;
    }

    /** Initialize: on success the handler keeps the client and the project,
        and the repository's name, description, author (the owner's name, ""
        without owner), URL and api_url (the SSH clone URL, also returned) are
        GitLab's; base_url is untouched. On failure nothing changes. */
    method Initialize(auth: Option<Authentication>, repo: Repository, api: Api)
      returns (r: Result<string, Error>)
      modifies this, repo
      ensures var res := ProjectResult(auth, old(repo.author), old(repo.name), api);
        && (r.Ok? <==> res.Ok?)
        && (r.Ok? ==>
              && Ready() && client == Some(Client(Token(auth))) && project == Some(res.value)
              && r.value == res.value.sshUrlToRepo
              && repo.State() == old(repo.State()).(
                   name := res.value.name, desc := res.value.description, author := OwnerName(res.value),
                   url := res.value.webUrl, apiUrl := res.value.sshUrlToRepo))
        && (r.Err? ==>
              && r.error == res.error
              && client == old(client) && project == old(project)
              && repo.State() == old(repo.State()))
    {
      var token := "";
      if auth.Some? && auth.value.token != "" {
        token := auth.value.token;
      }
      var git := Client(token);
      var found := api.getProject(git, repo.author + "/" + repo.name);
      if found.Err? {
        return Err(ForeignError(found.error));
      }
      client := Some(git);
      project := Some(found.value);
      var author := "";
      if found.value.owner.Some? {
        author := found.value.owner.value.name;
      }
      repo.name := found.value.name;
      repo.desc := found.value.description;
      repo.author := author;
      repo.url := found.value.webUrl;
      repo.apiUrl := found.value.sshUrlToRepo;
      r := Ok(found.value.sshUrlToRepo);
    }

    /** getLabels. */
    method GetLabels(api: Api) returns (r: Result<map<string, string>, Error>)
      requires Ready()
      ensures r == LabelsResult(client.value, project.value.id, api)
    {
      var ls := api.listLabels(client.value, project.value.id);
      if ls.Err? {
        return Err(ForeignError(ls.error));
      }
      var colors := FillLabelColors(ls.value);
      r := Ok(colors);
    }

    method DownloadAllIssues(auth: Option<Authentication>, f: IssueFilter, api: Api)
      returns (r: Result<Option<seq<Issue>>, Error>)
      requires Ready()
      ensures r == AllIssuesResult(client.value, project.value.id, f, api)
    {
      var options := ListOptions(1, 1000, None, None, None);
      if f.labels.Some? {
        var names: seq<string> := [];
        for k := 0 to |f.labels.value|
          invariant |names| == k
          invariant forall j :: 0 <= j < k ==> names[j] == f.labels.value[j].name
        {
          names := names + [f.labels.value[k].name];
        }
        assert names == LabelOption(f).value;
        options := options.(labels := Some(names));
      }
      assert options.labels == LabelOption(f);
      var state := "";
      if f.getOpen && !f.getClosed {
        state := "opened";
      } else if !f.getOpen && f.getClosed {
        state := "closed";
      }
      if state != "" {
        options := options.(state := Some(state));
      }
      assert options.state == StateOption(f);
      assert options == IssueListOptions(f);

      var colors := GetLabels(api);
      if colors.Err? {
        return Err(colors.error);
      }
      var docs := api.listProjectIssues(client.value, project.value.id, options);
      if docs.Err? {
        return Err(ForeignError(docs.error));
      }
      var issues := ConvertIssues(docs.value, colors.value);
      if issues.Err? {
        return Err(issues.error);
      }
      r := Ok(Some(issues.value));
    }

    method DownloadIssue(auth: Option<Authentication>, id: uint, api: Api)
      returns (r: Result<Option<Issue>, Error>)
      requires Ready()
      ensures r == IssueResult(client.value, project.value.id, id, api)
    {
      var options := ListOptions(1, 1000, None, None, Some([Strs.Uint64ToInt(id)]));
      var docs := api.listProjectIssues(client.value, project.value.id, options);
      if docs.Err? {
        return Err(ForeignError(docs.error));
      }
      if |docs.value| == 0 {
        return Ok(None);
      }
      var colors := GetLabels(api);
      if colors.Err? {
        return Err(colors.error);
      }
      var issue := ConvertIssue(docs.value[0], colors.value);
      if issue.Err? {
        return Err(issue.error);
      }
      r := Ok(Some(issue.value));
    }

    /** DownloadIssueComments: GitLab comments are not fetched; always (nil, nil). */
    method DownloadIssueComments(auth: Option<Authentication>, id: uint, api: Api)
      returns (r: Result<Option<seq<IssueComment>>, Error>)
      ensures r.Ok? && r.value.None?
    {
      r := Ok(None);
    }
  }
}
