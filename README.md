# shissue, modelled in Dafny

shissue is a command-line viewer for GitHub and GitLab issues. It is run inside a
git working copy. It runs `git remote -v`, finds the `origin` remote, and takes the
host, author and repository name out of its SSH or HTTPS URL. It tries GitHub with
that repository first and falls back to GitLab. It then lists the issues (subject to
a filter) or shows one issue with its comments.

This project models that program:

- **The records** (`Repo`, repo.go): credentials, the repository (a class, since the
  hosts overwrite it through a pointer), issues, labels, comments, the issue filter
  and the error types.
- **The GitHub host** (`GitHub`, github.go):
  - the API URL and the GET request with optional Basic authentication;
  - the 401/403/404 branches;
  - the mapping of GitHub's documents onto issues and comments, and the three downloads.
- **The GitLab host** (`GitLab`, gitlab.go):
  - the project lookup;
  - the label-colour map and the translation of the filter into listing options;
  - the mapping of GitLab's issues and the three downloads.
- **The host interface** (`Hosts`, the `TRepoHost` interface of repo.go): a datatype
  with one variant per host, plus the dispatching operations.
- **Repository and host identification** (`GetRepo`, get-repo.go):
  - `git config` properties;
  - the two remote-URL regular expressions, with Go's leftmost-first matching;
  - the scan of the remote lines;
  - the host resolver.
- **The command line** (`Cli`, main.go):
  - the option scan and the credentials from git's configuration;
  - the password prompt and command dispatch;
  - the print mode and the filter words of the `issues` command;
  - the arithmetic of the coloured label badges.

The outside world is made of parameters:

- HTTP is `fetch: Request -> Reply`.
- The go-gitlab calls are the three functions of a `GitLab.Api`.
- `/bin/sh -c` is `sh: string -> CommandResult`.
- `os.Getwd` is `cwd: Result<string, string>`.
- The line typed at the password prompt is `typed`.

A Go panic becomes an `Error.Panic` value carrying the panic's message. A nil slice or
pointer becomes `None`. `Cli.Run` returns what the program would end with.

Where the code and the comments of the `TRepoHost` interface (repo.go:100-128) or of
the host resolver (get-repo.go:138-139) disagree, the model follows the code:

- **GitHub never reports a `RepoConnectError`.** `github.go` only returns
  `errGithubRepo`, transport errors and JSON errors. So the resolver's stop on a 401 or
  403 (get-repo.go:140-144) never fires. A GitHub authentication or permission failure
  falls through to GitLab, and the program ends with GitLab's verdict. This is proved
  as `GetRepo.GitHubFailureFallsThrough` and `GetRepo.GitHubForbiddenReachesGitLab`.
- **No pagination.** Each listing is one request for page 1 with 1000 items per page.
- **GitHub's listing takes no filter.** `TGitHubRepo.DownloadAllIssues` takes only the
  credentials (github.go:162), while `TRepoHost` declares `(auth, filter)` (repo.go:120).
  So `TGitHubRepo` does not implement the interface, and the `return gr` at
  get-repo.go:135 would not compile as written. The model resolves this by giving the
  GitHub handler the filter and having it ignore it (`Hosts.GitHubIgnoresFilter`).
  The listing is one page (up to 1000) of GitHub's default issue listing. No state or
  label parameters are sent, and pull requests are not told apart from issues.
- **GitLab's author and creation time are read through pointers.** An issue whose
  `Author` or `CreatedAt` is nil makes gitlab.go:158/161 and 225/228 panic with a nil
  dereference. The model carries both as options and returns that panic.
- **Short or missing colour text is a panic.**
  - A label colour shorter than six characters makes Go's slicing panic, and so does
    a GitLab label missing from the project's colour map.
  - Colour text that is present but is not hex decodes as 0 per component. It does
    not default to white.
  - GitHub colours are read without stripping a '#'.
- **The missing-value guards never fire.** The guards for a missing option value
  (main.go:74, 86, 334, 353 and 362) compare against the wrong index. A flag or filter
  word that is the last argument panics with an index out of range instead.
- **An unknown command is reported by the wrong argument.** The message names
  `os.Args[1]`, not the command word.
- **The unknown-print-mode panic is unreachable.** This is proved as
  `Cli.ModeAlwaysKnown`.

## Model

| member | source | states |
|---|---|---|
| Repo.Repository.constructor | repo.go:26-35 | a new repository record holds exactly the given name, description, author, URL, base URL and API URL |
| Repo.Error.Message | repo.go:69-71 | Error() is the stored message, for every error type |
| Repo.Error.Code | repo.go:63-67 | an error carries an integer code exactly when it is a RepoConnectError, and the code is its ErrorCode |
| Repo.DecodeColor | github.go:203-205 | colour text decodes exactly when it has at least six characters |
| Repo.DecodeEncodeColor | repo.go:37-41 | decoding the six-hex-digit form of any (r, g, b) gives (r, g, b) back |
| Repo.DecodeColorExample | github.go:203-205 | `ff00aa` and `FF00AA` both decode to (255, 0, 170) |
| Repo.DecodeColorMalformed | github.go:203-205 | a pair that is not hex reads as 0 instead of failing; text of three characters has no colour |
| Repo.ColoredLabel | github.go:202-212 | a label keeps its name and gets the decoded colour; text shorter than six characters is the slicing panic |
| Strs.JoinSplit | get-repo.go:66 | joining the pieces of strings.Split with the separator gives the original string |
| Strs.SplitJoin | main.go:338 | splitting a join of separator-free pieces gives the pieces back |
| Strs.Trim | main.go:152 | strings.Trim keeps the middle of the string: what is cut from both ends belongs to the cut set, and a non-empty result starts and ends outside it |
| Strs.TrimLineEnd | main.go:152 | a typed line ending in a CR or LF loses only that ending |
| Strs.Split | get-repo.go:66 | strings.Split gives at least one piece, and no piece holds the separator |
| Strs.IndexOfFirst | github.go:169 | strings.Index finds an occurrence exactly when the text contains the pattern, and no occurrence starts earlier |
| Strs.DeleteAll | get-repo.go:84 | strings.Replace with -1 and an empty replacement never lengthens the text |
| Strs.DeleteAllChanges | get-repo.go:84 | strings.Replace with -1 shortens the text exactly when the pattern occurs, and changes nothing when it does not |
| Strs.ReplacesFirstOccurrence | github.go:169 | strings.Replace with 1 replaces the occurrence strings.Index finds by the replacement, and changes nothing when there is none |
| Strs.IntToUint64 | gitlab.go:154 | Go's uint(x) is x modulo 2^64, and leaves a value already in range unchanged |
| Strs.HexPairIgnoresCase | gitlab.go:146-148 | a pair of hex digits reads the same with its letters in upper or lower case |
| Strs.ReplaceFirstAt | github.go:169 | strings.Replace with 1 replaces exactly the first occurrence |
| Strs.ParseUint64 | main.go:253 | ParseUint(s, 10, 64) succeeds exactly on non-empty all-digit text below 2^64, with the digits' value |
| Strs.ParseUint64OfNat | main.go:253 | printing any 64-bit number in decimal and parsing it gives the number |
| Strs.Uint64ToInt | github.go:235 | int(uint) is the two's-complement reading: congruent modulo 2^64, within the int64 range |
| Strs.ParseHexPair | github.go:203 | ParseUint(·, 16, 8) with its error discarded is a byte, and 0 on anything that is not two hex digits |
| Strs.HexPairRoundTrip | github.go:203-205 | a byte written as two hex digits parses back to itself |
| GitHub.ApiUrl | github.go:83-86 | the API URL is `https://api.github.com/repos/` followed by author/name |
| GitHub.BuildGetRequest | github.go:125-138 | every request URL gets `?per_page=1000`; Basic credentials are sent exactly when there is a record with a non-empty username |
| GitHub.Get | github.go:140-149 | a transport failure is passed on, a 401 is the authentication error, and any other response is returned |
| GitHub.ListUrl | github.go:169 | the list URL is the issues URL with its first `{/number}` removed, or the issues URL when there is none |
| GitHub.IssueUrl | github.go:234-235 | the issue URL has the first `{/number}` replaced by `/N`, or is the issues URL when there is none |
| GitHub.CommentsUrl | github.go:300-301 | the comments URL has the first `{/number}` replaced by `/N/comments`, or is the issues URL when there is none |
| GitHub.TemplateUrls | github.go:234-235 | for an issues URL `base{/number}`, the list, issue and comments URLs are `base`, `base/N` and `base/N/comments` |
| GitHub.InitializeResult | github.go:77-120 | success needs a response that is not 401, 403 or 404 and that decodes; 401 gives the authentication error, 404 "not found", 403 the rate-limit error when the remaining quota is "0" and the permission error otherwise; no error is a RepoConnectError |
| GitHub.ToLabels | github.go:201-214 | labels are mapped one for one in order, and it fails (with the slicing panic) exactly when some colour is too short |
| GitHub.Logins | github.go:195-199 | the assignees become their logins, one for one, in order |
| GitHub.ToIssue | github.go:188-219 | an issue keeps id, number, title, URL, author login, assignee logins and labels; it is closed exactly when its state is "closed" |
| GitHub.ToIssues | github.go:186-219 | the list is mapped one for one in order, and fails exactly when one issue fails |
| GitHub.ToComment | github.go:323-329 | a comment keeps the id, HTML URL, author login, creation time and body of GitHub's comment |
| GitHub.AllIssuesResult | github.go:162-222 | with no issue tracker the result is (nil, nil); a transport failure or a 401 is passed on; a body that is not an issue list is its decoding error; an issue-list body gives the mapped issues exactly when every issue maps, else the first issue's panic |
| GitHub.IssueResult | github.go:227-289 | with no issue tracker, or on a 404, the result is (nil, nil); a transport failure or a 401 is passed on; a body that is not an issue is its decoding error; an issue body gives the mapped issue or its panic |
| GitHub.CommentsResult | github.go:292-332 | with no issue tracker, or on a 404, the result is (nil, nil); a transport failure or a 401 is passed on; a body that is not a comment list is its decoding error; a comment list is mapped one for one in order |
| GitHub.ConvertIssue | github.go:255-288 | the assignee and label loops build exactly ToIssue's issue, or its panic |
| GitHub.ConvertIssues | github.go:186-221 | the index-by-index loop builds exactly ToIssues' list |
| GitHub.ConvertComments | github.go:321-329 | the loop maps every comment, one for one, in order |
| GitHub.GitHubRepo.constructor | get-repo.go:132 | a new handler holds the zero repository document |
| GitHub.GitHubRepo.Initialize | github.go:77-120 | succeeds exactly when InitializeResult does; on success it returns the API URL, keeps the document, and overwrites only the repository's name and description; on failure nothing changes |
| GitHub.GitHubRepo.DownloadAllIssues | github.go:162-222 | returns AllIssuesResult of the stored document |
| GitHub.GitHubRepo.DownloadIssue | github.go:227-289 | returns IssueResult of the stored document |
| GitHub.GitHubRepo.DownloadIssueComments | github.go:292-332 | returns CommentsResult of the stored document |
| GitLab.Token | gitlab.go:29-32 | the client's token is the record's token when there is a record, else empty |
| GitLab.ProjectPath | gitlab.go:36 | the project path is the author, a '/', and the name |
| GitLab.OwnerName | gitlab.go:44-47 | the author is the owner's name, or empty without an owner |
| GitLab.ProjectResult | gitlab.go:34-39 | the project is GetProject's answer for author/name with the record's token; its only errors are the library's |
| GitLab.LabelColors | gitlab.go:59-73 | the colour map has exactly the listed label names as keys |
| GitLab.LastColorWins | gitlab.go:68-70 | a name listed more than once keeps the colour of its last listing |
| GitLab.LabelsResult | gitlab.go:59-73 | the library's error is passed on; otherwise the result is the colour map of the listed labels |
| GitLab.LabelFor | gitlab.go:139-150 | a label is coloured exactly when its name is in the map with at least seven characters, decoding the text after the '#'; otherwise it is the slicing panic |
| GitLab.LabelForExample | gitlab.go:140-145 | `#ff0000` gives the colour (255, 0, 0) |
| GitLab.ToLabels | gitlab.go:138-151 | label names are mapped one for one in order, and it fails exactly when some name has no usable colour |
| GitLab.Names | gitlab.go:133-136 | the assignees become their display names, one for one, in order |
| GitLab.ToIssue | gitlab.go:131-165 | an issue gets the global id and the project-local IID as uint, plus title, URL, author name, assignee names and labels; it is closed exactly when its state is "closed"; a label error comes first, and a nil author or creation time is the nil-dereference panic |
| GitLab.ToIssues | gitlab.go:125-167 | the list is mapped one for one in order, and fails exactly when one issue fails, with a slicing or nil-dereference panic |
| GitLab.FirstFailureStops | gitlab.go:127-165 | the listing fails with the panic of its first failing issue |
| GitLab.StateOption | gitlab.go:100-109 | the state option is "opened" exactly for open-only, "closed" exactly for closed-only, and unset exactly when both or neither are asked for |
| GitLab.LabelOption | gitlab.go:91-98 | the labels option is present exactly when the filter has a label list, and holds its names in order |
| GitLab.IssueListOptions | gitlab.go:86-109 | the listing asks for page 1 of 1000, no IIDs, and the filter's label names and state |
| GitLab.ListingSelectsAdmitted | gitlab.go:86-109 | without assignee or creator criteria, the issues the listing options select are exactly those the filter (repo.go:89-98) admits |
| GitLab.OptionsIgnorePeople | gitlab.go:84-109 | the assignee and creator criteria do not change the listing options |
| GitLab.OptionsExample | gitlab.go:86-109 | the filter "label bug, open only" becomes page 1, 1000 per page, labels ["bug"], state "opened" |
| GitLab.AllIssuesResult | gitlab.go:84-168 | a labels error comes first; then a listing error is passed on; otherwise the result is the mapped listing, never nil, or the first issue's panic |
| GitLab.IssueLookupOptions | gitlab.go:177-180 | the lookup asks for page 1 of 1000, no labels or state, and exactly the one IID that reads back as the number asked for |
| GitLab.IssueResult | gitlab.go:175-234 | the issue is looked up by IID; a listing error is passed on; an empty listing is (nil, nil) without asking for labels; then a labels error is passed on; otherwise the first result mapped with the project's colours, or its panic |
| GitLab.FillLabelColors | gitlab.go:61-70 | the loop builds exactly the colour map |
| GitLab.ConvertIssue | gitlab.go:131-164 | the assignee and label loops build exactly ToIssue's issue, or its panic |
| GitLab.ConvertIssues | gitlab.go:125-167 | the append loop builds exactly ToIssues' list |
| GitLab.GitLabRepo.constructor | get-repo.go:147 | a new handler has neither client nor project |
| GitLab.GitLabRepo.Initialize | gitlab.go:27-56 | succeeds exactly when the lookup does; on success the handler is ready, and the repository's name, description, author, URL and API URL (the SSH URL, also returned) are GitLab's while its base URL stays; on failure nothing changes |
| GitLab.GitLabRepo.GetLabels | gitlab.go:59-73 | returns LabelsResult for the handler's client and project |
| GitLab.GitLabRepo.DownloadAllIssues | gitlab.go:84-168 | builds the options from the filter in loops and returns AllIssuesResult |
| GitLab.GitLabRepo.DownloadIssue | gitlab.go:175-234 | returns IssueResult for the handler's client and project |
| GitLab.GitLabRepo.DownloadIssueComments | gitlab.go:237-240 | always (nil, nil) |
| Hosts.GitHubIgnoresFilter | github.go:162-167 | the GitHub handler's listing is the same whatever filter is asked for |
| Hosts.GitLabIgnoresPeople | gitlab.go:91-109 | the GitLab handler's listing does not depend on the assignee and creator criteria |
| Hosts.NilListOnlyWithoutTracker | repo.go:111-120 | a nil list with no error comes only from a GitHub repository without an issue tracker |
| Hosts.GitLabHasNoComments | gitlab.go:237-240 | comments through a GitLab handler are always (nil, nil) |
| Hosts.DownloadAllIssues | repo.go:120 | dispatches to the handler's DownloadAllIssues |
| Hosts.DownloadIssue | repo.go:124 | dispatches to the handler's DownloadIssue |
| Hosts.DownloadIssueComments | repo.go:127 | dispatches to the handler's DownloadIssueComments |
| GetRepo.OutputError | get-repo.go:52 | a command fails exactly when it did not exit with status 0, and a non-zero status N reads "exit status N" |
| GetRepo.GitProperty | get-repo.go:33-42 | the command's failure is its error; empty output is the slicing panic; a value is the output minus its last byte |
| GetRepo.GitPropertyOfLine | get-repo.go:40-41 | a value printed on its own line reads back as the value |
| GetRepo.GitPropertyDropsAnyLastByte | get-repo.go:41 | output without a final newline loses its last character |
| GetRepo.HostRun | get-repo.go:62 | the host group's run is the longest prefix of host characters |
| GetRepo.LastIndexOf | get-repo.go:62 | the greedy author group ends at the last '/' |
| GetRepo.MatchAt | get-repo.go:62-63 | a match at the start is the whole text, split into scheme, host characters, separator, author, '/', and a name without '/' |
| GetRepo.HostRunOf | get-repo.go:62 | a host followed by a non-host character is exactly the host run |
| GetRepo.LastSlashOf | get-repo.go:62 | in author/name with no '/' in name, the last '/' is the one after author |
| GetRepo.MatchAtSplit | get-repo.go:62-63 | text past the scheme made of host, separator and a tail with a '/' matches with groups host, and the two sides of the tail's last '/' |
| GetRepo.MatchAtShape | get-repo.go:62-63 | every text of the pattern's shape matches, and the groups are the parts it was built from |
| GetRepo.SshFind | get-repo.go:81 | an SSH match is a suffix of the URL spelling `git@host:author/name` with host characters and no '/' in the name, and no earlier position matches |
| GetRepo.HttpsFind | get-repo.go:93 | an HTTPS match is a suffix of the URL spelling `https://host/author/name` with host characters and no '/' in the name, and no earlier position matches |
| GetRepo.Find | get-repo.go:81 | the first match is a suffix matched at its start, and no earlier position matches |
| GetRepo.NoSchemeNoMatch | get-repo.go:81-93 | text lacking the scheme's last character has no match |
| GetRepo.NoGitAtBefore | get-repo.go:62 | '@'-free text in front of `git@` cannot itself start `git@` |
| GetRepo.SshFindSkips | get-repo.go:81 | the SSH search over '@'-free text followed by `git@` finds what the match at `git@` finds |
| GetRepo.SshMatchStartsAtGitAt | get-repo.go:81-88 | with '@'-free text before `git@`, the URL is the match from `git@` on, with its host, author and name |
| GetRepo.HttpsOnlyAtStart | get-repo.go:93 | when the only ':' is that of a leading `https://`, an HTTPS match is the whole text |
| GetRepo.HttpsHostNotFollowedBySlash | get-repo.go:93 | when `https://` occurs only at the start and the host run is not followed by '/', as with credentials or a port, the HTTPS pattern does not match |
| GetRepo.HttpsCredentialsNoMatch | get-repo.go:63 | an HTTPS URL `https://user@host/...` whose user is made of host characters is not recognised (the general case, with `user:token@` or a port, is HttpsHostNotFollowedBySlash) |
| GetRepo.RemoteLines | get-repo.go:65-66 | the output is split into at least one line |
| GetRepo.ScanRemotes | get-repo.go:68-107 | its only errors are "no remote" and the index panic of an `origin` line without a tab; a repository found has an empty description and API URL |
| GetRepo.RepositoryResult | get-repo.go:45-108 | git's status 128 is "no repository", any other failure is git's error, and otherwise the remote lines are scanned |
| GetRepo.NoOriginNoRemote | get-repo.go:75-77 | with no `origin` line the result is "no remote" |
| GetRepo.OtherRemotesSkipped | get-repo.go:68-77 | lines of other remotes do not change the result |
| GetRepo.OriginLineUrl | get-repo.go:69-79 | in git's `origin` line, the URL is the text between the tab and the first space |
| GetRepo.FromMatch | get-repo.go:83-89 | the repository takes author, URL and host from the match with an empty description and API URL; its name is the match's name unchanged exactly when it holds no ".git", and never longer; the HTTPS branch (get-repo.go:96-102) builds it the same way |
| GetRepo.DeleteGitSuffix | get-repo.go:84 | a trailing ".git" is removed from a name without other dots |
| GetRepo.DeleteAllNotRepeated | get-repo.go:84 | ".git" is removed in one pass, not repeatedly: ".gi.gitt" becomes ".git" |
| GetRepo.DeleteAllEveryOccurrence | get-repo.go:84 | every ".git" is removed, not only a trailing one: "a.gitb.git" becomes "ab" |
| GetRepo.SshOrigin | get-repo.go:79-91 | an `origin` line `git@host:author/name.git` gives the repository name of author with base URL host |
| GetRepo.HttpsOrigin | get-repo.go:93-103 | an `origin` line `https://host/author/name.git` gives the same repository |
| GetRepo.CloneRemoteLines | get-repo.go:65-66 | git's fetch and push lines for a clone become exactly two lines |
| GetRepo.SshClone | get-repo.go:45-91 | for a clone over SSH, the repository comes out of git's output |
| GetRepo.GetRepository | get-repo.go:45-108 | the loop gives exactly RepositoryResult, as a new record |
| GetRepo.ResolveHost | get-repo.go:117-155 | every failure is a panic; a failing working-directory lookup or repository search panics with its message; a resolved host means the repository was found, and GitHub is chosen only when its Initialize succeeded, GitLab only when its project lookup did |
| GetRepo.ResolvedData | get-repo.go:117-155 | the handler's contents exist exactly when ResolveHost succeeds, carry its error otherwise, and are GitHub's document exactly when GitHub was chosen |
| GetRepo.GitHubPreferred | get-repo.go:132-136 | when GitHub knows the repository, GitHub is used |
| GetRepo.GitHubFailureFallsThrough | get-repo.go:138-153 | any GitHub failure hands over to GitLab, and the result is GitLab's verdict |
| GetRepo.GitHubForbiddenReachesGitLab | get-repo.go:140-144 | a GitHub 403 does not stop the search: with GitLab also failing, the panic carries GitLab's message |
| GetRepo.GetRepositoryHost | get-repo.go:117-155 | matches ResolveHost; a host returned is new, ready, and holds what its Initialize found, which is ResolvedData |
| Cli.ArgStep | main.go:67-96 | a non-flag changes nothing; the allow flag sets its switch; -U needs a following value (else the index panic), sets the username and keeps or empties the rest; -P panics before any username, needs a following value, and sets the password; the command start moves past the flag's value |
| Cli.ArgStepCommandStart | main.go:66-96 | one step moves the command start exactly when the argument is a flag: past it, or past its value |
| Cli.ParseUpTo | main.go:64-100 | the command start is never 0 |
| Cli.ParseErrorPersists | main.go:73-96 | once the scan has panicked, later arguments change nothing |
| Cli.CommandStartAfterLastFlag | main.go:64-100 | the command start follows the last flag (or its value), or is 1 with no flag |
| Cli.MissingValueGuardsDead | main.go:73-88 | the "not specified" panics for -U and -P never happen |
| Cli.PasswordFirstPanics | main.go:90-92 | -P before any -U, with no configured credentials, panics |
| Cli.NoCredentialsYet | main.go:78-92 | without -U or -P the scan keeps the credentials absent |
| Cli.ParseArgsResult | main.go:64-100 | the command start is 1 or within the arguments, and an allowed untrusted certificate stays allowed |
| Cli.ParseArgs | main.go:64-100 | the loop gives exactly the scan's result |
| Cli.PropertyOrEmpty | main.go:115-116 | a value read is passed on; an ignored git-config error reads as ""; the empty-output panic is passed on and stops the program |
| Cli.ConfigAuth | main.go:114-122 | succeeds exactly when both keys can be read, and otherwise fails with the first read's panic; credentials exist exactly when the configured username or token is non-empty, and then hold both with no password |
| Cli.ConfigUnset | main.go:114-122 | with neither key configured there are no credentials |
| Cli.ConfigSet | main.go:114-122 | configured values become the credentials |
| Cli.Prompted | main.go:137-155 | the password is asked for exactly when there is a username and no password, and is the typed line without surrounding CR/LF |
| Cli.FirstCommand | main.go:158-163 | the command found is the first with that name, and none is found exactly when no name matches |
| Cli.FindCommand | main.go:158-163 | the loop finds exactly FirstCommand |
| Cli.FirstMatchIsFirstCommand | main.go:158-163 | a name matched at i with no earlier match is found at i |
| Cli.NoMatchIsNone | main.go:158-165 | with no matching name, nothing is found |
| Cli.CommandTable | main.go:103-108 | `help` and `issues` are the commands |
| Cli.MainDecision | main.go:102-166 | a configuration or argument panic is passed on; usage is printed exactly when no argument is left after the flags; otherwise the first command with that name runs with the prompted credentials on the arguments from its own name on, and an unknown command is reported by the second argument |
| Cli.FlagAfterCommand | main.go:124-135 | `issues -U bob` leaves no command word, so help is printed |
| Cli.UnknownCommandNamesSecondArgument | main.go:165 | `-U bob frobnicate` is reported as "No command named -U" |
| Cli.UsernameThenIssues | main.go:137-160 | `-U bob issues` prompts for the password and runs `issues` with it |
| Cli.PrintMode | main.go:173-178 | the mode is the first argument when that names a mode, and "long" otherwise |
| Cli.ModeStyle | main.go:407-436 | long and full list in detail, oneline and short one per line, anything else panics |
| Cli.ModeAlwaysKnown | main.go:431-436 | the unknown-mode panic cannot happen |
| Cli.LabelsOf | main.go:338-345 | a `labels` value becomes one label per comma-separated piece, trimmed of spaces, in order |
| Cli.LabelsOfJoined | main.go:338-345 | names joined with commas come back as the label list |
| Cli.FilterStep | main.go:330-378 | `labels`/`label`, `assignee` and `creator` succeed exactly when a next word exists and set their criterion from it; the only failure is the index panic; `closed` asks for closed only, `all` for both; any other word changes nothing; a step never leaves both states unasked |
| Cli.FilterUpTo | main.go:319-380 | at least one state is always asked for |
| Cli.FilterResult | main.go:319-380 | at least one state is always asked for |
| Cli.LastStateWordWins | main.go:369-377 | the last `closed` or `all` decides the states (`LastStateWordAt` names that position); with neither, open only |
| Cli.ValueWordRescanned | main.go:351-372 | `assignee closed` sets the assignee to "closed" and also asks for closed issues only |
| Cli.SplitLabels | main.go:338-345 | the loop builds exactly LabelsOf |
| Cli.BuildFilter | main.go:319-380 | the loop builds exactly FilterResult |
| Cli.FilterErrorPersists | main.go:330-379 | once the filter loop has panicked, later words change nothing |
| Cli.FilterPanics | main.go:334-365 | the filter's only failures are panics |
| Cli.FilterUpToPanics | main.go:334-365 | the filter's only failures are panics, at every prefix |
| Cli.ColorIndex | main.go:237-244 | the uint8 arithmetic never wraps: the result is the exact xterm cube index, between 16 and 231 |
| Cli.ColorIndexDecode | main.go:244 | the three cube coordinates can be read back from the index |
| Cli.DarkText256Monotone | main.go:239 | a lighter colour in every component keeps black text on a 256-colour terminal |
| Cli.DarkTextTrueColorMonotone | main.go:227 | a lighter colour in every component keeps black text on a true-colour terminal |
| Cli.DarkTextImplication | main.go:225-239 | black text on a 256-colour terminal implies black text on a true-colour one |
| Cli.DarkTextBranchesDiffer | main.go:225-239 | the two branches disagree on (0, 153, 102) |
| Cli.Back256 | main.go:246-247 | the 256-colour background escape is `ESC[48;5;` and `m` around a decimal number that reads back as the cube index |
| Cli.BackTrue | main.go:230-231 | the 24-bit background escape is `ESC[48;2;` and `m` around three ';'-separated numbers that read back as red, green and blue |
| Cli.BackColor256 | main.go:234-248 | a badge keeps the label text intact before the reset; black text is added exactly when the 256-colour test says so |
| Cli.BackColorTrue | main.go:222-232 | a badge keeps the label text intact before the reset; black text is added exactly when the true-colour test says so |
| Cli.BadgeShape | main.go:228-231 | a badge splits into colour prefix (with black text when dark) and text plus reset |
| Cli.WhiteBadge | main.go:237-244 | white gets black text and cube entry 231 |
| Cli.NumberedResult | main.go:252-316 | a lookup error or a missing issue is a panic; a found issue is shown with its comments (nil read as none), and a comments error is a panic |
| Cli.ShowNumbered | main.go:252-316 | a host error or a missing issue is a panic; a found issue whose comments download is shown with them (nil read as none), and a comments error is a panic; the result is NumberedResult on the host's contents |
| Cli.ListResult | main.go:319-386 | a filter panic stops the command; with a filter, the host's issues are shown in the print mode when the download succeeds, and its error is a panic otherwise |
| Cli.ShowList | main.go:319-386 | a filter panic stops the command; with a filter, the host's issues are shown in the print mode exactly when the download succeeds, and its error is a panic otherwise; the result is ListResult on the host's contents |
| Cli.ShowOnHost | main.go:252-386 | on a resolved host, a numeric first argument gives NumberedResult and anything else ListResult |
| Cli.IssuesCommandResult | main.go:172-386 | `help` shows the command's help without a host; a host failure is that panic; on the resolved host a number gives NumberedResult and anything else ListResult |
| Cli.IssuesCommandOnHost | main.go:252-386 | on a resolved host the command's result is NumberedResult or ListResult, by the first argument |
| Cli.IssuesCommandHostError | main.go:193 | a host that cannot be resolved is the command's panic |
| Cli.IssuesCommandShowsIssue | main.go:252-254 | a single issue is shown only for a numeric first argument |
| Cli.IssuesCommandShowsList | main.go:173-386 | a listing is shown only when the first argument is not a number, with the filter and mode the arguments give |
| Cli.IssuesCommandFilterError | main.go:319-386 | a malformed filter on a resolved host is the command's panic |
| Cli.PrintIssues | main.go:172-439 | the result is IssuesCommandResult on the resolved host: `help` shows the command's help without a host; a host failure is a panic; a number shows one issue, and anything else lists issues with the filter |
| Cli.Run | main.go:102-166 | the outcome follows MainDecision: its panic, usage, help, unknown command, or the `issues` command's result, which is IssuesCommandResult on the resolved host (its panic, or what it shows) |

## Left out

- **Running git:** process execution is the `sh` parameter, and `os.Getwd` is the `cwd` parameter.
- **The password prompt:** reading standard input and switching terminal echo with `stty` are reduced to the typed line `typed`.
- **The network:** HTTP, TLS (including `--allow-untrusted-certs`, which is parsed but does not change anything the model observes) and JSON decoding are reduced to `fetch` and the `Body` union. `GitHub.Body` lists the document shapes a body can decode to.
- **go-gitlab:** the client library is the `GitLab.Api` record of functions. Its errors are carried as messages.
- **Printing:** the help text and the formatted issue listing are not modelled. A run ends in an `Outcome` that says what would be shown.
- **Badge colour escapes:** these are modelled, but choosing between the two branches from `COLORTERM` is not.
- **Time:** `time.Time` values are never inspected, so they are carried as opaque stamps.
- **Floating point:** the `float32` comparisons of the badge colouring are replaced by exact integer forms, `DarkText256` and `DarkTextTrueColor`.
  - The true-colour form `cR + 2.5cG + cB > 9` is exact on the values 0..5.
  - The 256-colour form is `uint8(float32(cG) * 2.5)`, which truncates.
- **`TRepoHost`:** this Go interface is a datatype with one variant per host.
- **Bytes and characters:** strings are sequences of characters. Go slices strings by byte, which differs only for non-ASCII text in remote URLs, label colours and git output.
- **The `issues == nil` check (gitlab.go:127-129):** it is not modelled because it can never be true. `make` never returns nil.
- **GitHub's `Issue_comment_url` and the owner:** they are decoded and stored, but no code reads them.
- **`Hosts.AllIssues`, `Hosts.OneIssue` and `Hosts.Comments`:** these are the specifications of the interface's operations, written through `Hosts.AllIssuesOf`, `Hosts.OneIssueOf` and `Hosts.CommentsOf` on the handler's contents (`Hosts.HostData`). Their properties are the `Hosts` lemmas and the host functions they select.
- **Nil GitLab assignees:** go-gitlab's assignee list holds pointers, and a nil entry would panic at gitlab.go:134. The model's assignees are values, so that panic is not modelled.
- **Go runtime panics:** they are modelled by their message only, not by the `runtime.Error` value Go builds.
