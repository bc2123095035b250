/** The command line (main.go): the option scan, credentials from git's
    configuration, the password prompt, command dispatch, and the `issues`
    command's choices (print mode, issue number or filter) together with the
    background-colour arithmetic of its label badges. Terminal output is not
    modelled: each run ends in an `Outcome` that says what would be shown. */
module Cli {
  import opened Wrappers
  import opened Repo
  import Strs
  import opened Hosts
  import opened GetRepo

  // ---------------------------------------------------------------------------
  // parseArgs
  // ---------------------------------------------------------------------------

  /** ArgumentData: the credentials (a nil pointer is `None`) and whether
      untrusted TLS certificates are allowed. */
  datatype ArgumentData = ArgumentData(auth: Option<Authentication>, allowUntrustedCerts: bool)

  /** The variables parseArgs updates as it scans. */
  datatype ParseState = ParseState(ad: ArgumentData, commandStart: nat)

  const AllowUntrustedFlag := "--allow-untrusted-certs"
  const UsernameMissing := "Username not specified"
  const PasswordMissing := "Password not specified"
  const PasswordBeforeUser := "Specify username before password"

  predicate IsUserFlag(w: string) { w == "-U" || w == "--username" }
  predicate IsPasswordFlag(w: string) { w == "-P" || w == "--password" }
  predicate IsFlag(w: string) { w == AllowUntrustedFlag || IsUserFlag(w) || IsPasswordFlag(w) }

  /** Where the command starts when the flag `w` at `idx` is the last one: just
      past it, or past its value. */
  function FlagEnd(w: string, idx: nat): nat
  {
    if w == AllowUntrustedFlag then idx + 1 else idx + 2
  }

  /** One turn of the loop, at argument `idx`. The guards `len(os.Args) <
      idx+1` are kept as written; the value of -U/-P is read at idx+1, which
      panics when the flag is the last argument. */
  function ArgStep(args: seq<string>, idx: nat, st: ParseState): (r: Result<ParseState, Error>)
    requires idx < |args|
    ensures !IsFlag(args[idx]) ==> r == Ok(st)
    ensures args[idx] == AllowUntrustedFlag ==>
      r == Ok(ParseState(st.ad.(allowUntrustedCerts := true), idx + 1))
    ensures IsUserFlag(args[idx]) ==>
      && (r.Ok? <==> idx + 1 < |args|)
      && (r.Err? ==> r.error == Panic(IndexOutOfRange))
      && (r.Ok? ==>
            && r.value.commandStart == idx + 2
            && r.value.ad.allowUntrustedCerts == st.ad.allowUntrustedCerts
            && r.value.ad.auth.Some? && r.value.ad.auth.value.username == args[idx + 1]
            && (st.ad.auth.Some? ==>
                  r.value.ad.auth.value.password == st.ad.auth.value.password
                  && r.value.ad.auth.value.token == st.ad.auth.value.token)
            && (st.ad.auth.None? ==>
                  r.value.ad.auth.value.password == "" && r.value.ad.auth.value.token == ""))
    ensures IsPasswordFlag(args[idx]) ==>
      && (r.Ok? <==> st.ad.auth.Some? && idx + 1 < |args|)
      && (st.ad.auth.None? ==> r == Err(Panic(PasswordBeforeUser)))
      && (st.ad.auth.Some? && idx + 1 == |args| ==> r == Err(Panic(IndexOutOfRange)))
      && (r.Ok? ==>
            && r.value.commandStart == idx + 2
            && r.value.ad.allowUntrustedCerts == st.ad.allowUntrustedCerts
            && r.value.ad.auth == Some(st.ad.auth.value.(password := args[idx + 1])))
  {
    var par := args[idx];
    var st1 := if par == AllowUntrustedFlag then ParseState(st.ad.(allowUntrustedCerts := true), idx + 1) else st;
    if IsUserFlag(par) then
      if |args| < idx + 1 then Err(Panic(UsernameMissing))
      else if idx + 1 >= |args| then Err(Panic(IndexOutOfRange))
      else
        var auth := if st1.ad.auth.None? then Authentication("", "", "") else st1.ad.auth.value;
        Ok(ParseState(st1.ad.(auth := Some(auth.(username := args[idx + 1]))), idx + 2))
    else if IsPasswordFlag(par) then
      if |args| < idx + 1 then Err(Panic(PasswordMissing))
      else if st1.ad.auth.None? then Err(Panic(PasswordBeforeUser))
      else if idx + 1 >= |args| then Err(Panic(IndexOutOfRange))
      else Ok(ParseState(st1.ad.(auth := Some(st1.ad.auth.value.(password := args[idx + 1]))), idx + 2))
    else Ok(st1)
  }

  /** The state after the first `n` arguments. The command start is never 0. */
  function ParseUpTo(args: seq<string>, n: nat, init: ParseState): (r: Result<ParseState, Error>)
    requires n <= |args|
    ensures init.commandStart >= 1 && r.Ok? ==> r.value.commandStart >= 1
    ensures r.Ok? ==> r.value.commandStart == init.commandStart || r.value.commandStart <= |args|
    ensures r.Ok? && init.ad.allowUntrustedCerts ==> r.value.ad.allowUntrustedCerts
  {
    if n == 0 then Ok(init)
    else
      var st :- ParseUpTo(args, n - 1, init);
      ArgStep(args, n - 1, st)
  }

  /** parseArgs: every argument, the program name included, is scanned, and
      the command start begins at 1. */
  function ParseArgsResult(args: seq<string>, ad: ArgumentData): (r: Result<ParseState, Error>)
    ensures r.Ok? ==> 1 <= r.value.commandStart && (r.value.commandStart == 1 || r.value.commandStart <= |args|)
    ensures r.Ok? && ad.allowUntrustedCerts ==> r.value.ad.allowUntrustedCerts
  {
    ParseUpTo(args, |args|, ParseState(ad, 1))
  }

  /** Once the scan has panicked, it stays panicked. */
  lemma {:induction false} ParseErrorPersists(args: seq<string>, n: nat, m: nat, init: ParseState)
    requires n <= m <= |args| && ParseUpTo(args, n, init).Err?
    ensures ParseUpTo(args, m, init) == ParseUpTo(args, n, init)
    decreases m - n
  {
    if n < m {
      ParseErrorPersists(args, n, m - 1, init);
    }
  }

  /** One turn moves the command start exactly when its argument is a flag. */
  lemma ArgStepCommandStart(args: seq<string>, idx: nat, st: ParseState)
    requires idx < |args| && ArgStep(args, idx, st).Ok?
    ensures ArgStep(args, idx, st).value.commandStart
      == (if IsFlag(args[idx]) then FlagEnd(args[idx], idx) else st.commandStart)
  {
  }

  /** The command start is just past the last flag (past its value for -U and
      -P), or 1 when there is no flag at all; flags after the command word
      move it too. */
  lemma {:induction false} CommandStartAfterLastFlag(args: seq<string>, n: nat, ad: ArgumentData)
    requires n <= |args| && ParseUpTo(args, n, ParseState(ad, 1)).Ok?
    ensures var cs := ParseUpTo(args, n, ParseState(ad, 1)).value.commandStart;
      && ((forall k :: 0 <= k < n ==> !IsFlag(args[k])) ==> cs == 1)
      && (forall k :: 0 <= k < n && IsFlag(args[k]) && (forall j :: k < j < n ==> !IsFlag(args[j])) ==>
            cs == FlagEnd(args[k], k))
  {
    if n > 0 {
      var init := ParseState(ad, 1);
      var st := ParseUpTo(args, n - 1, init);
      assert st.Ok?;
      CommandStartAfterLastFlag(args, n - 1, ad);
      ArgStepCommandStart(args, n - 1, st.value);
      assert ParseUpTo(args, n, init) == ArgStep(args, n - 1, st.value);
      var cs := ArgStep(args, n - 1, st.value).value.commandStart;
      forall k | 0 <= k < n && IsFlag(args[k]) && (forall j :: k < j < n ==> !IsFlag(args[j]))
        ensures cs == FlagEnd(args[k], k)
      {
        if k < n - 1 {
          assert !IsFlag(args[n - 1]);
        }
      }
    }
  }

  /** The guards for a missing -U or -P value can never fire: the index read
      is past the end only when Go panics on the read itself. */
  lemma {:induction false} MissingValueGuardsDead(args: seq<string>, n: nat, ad: ArgumentData)
    requires n <= |args|
    ensures ParseUpTo(args, n, ParseState(ad, 1)) != Err(Panic(UsernameMissing))
    ensures ParseUpTo(args, n, ParseState(ad, 1)) != Err(Panic(PasswordMissing))
  {
    if n > 0 {
      MissingValueGuardsDead(args, n - 1, ad);
    }
  }

  /** -P before any -U, with no credentials from git's configuration, stops
      the program. */
  lemma PasswordFirstPanics(args: seq<string>, k: nat, ad: ArgumentData)
    requires k < |args| && IsPasswordFlag(args[k]) && ad.auth.None?
    requires forall j :: 0 <= j < k ==> !IsUserFlag(args[j]) && !IsPasswordFlag(args[j])
    ensures ParseArgsResult(args, ad) == Err(Panic(PasswordBeforeUser))
  {
    NoCredentialsYet(args, k, ad);
    ParseErrorPersists(args, k + 1, |args|, ParseState(ad, 1));
  }

  lemma {:induction false} NoCredentialsYet(args: seq<string>, n: nat, ad: ArgumentData)
    requires n <= |args| && ad.auth.None?
    requires forall j :: 0 <= j < n ==> !IsUserFlag(args[j]) && !IsPasswordFlag(args[j])
    ensures ParseUpTo(args, n, ParseState(ad, 1)).Ok?
    ensures ParseUpTo(args, n, ParseState(ad, 1)).value.ad.auth.None?
  {
    if n > 0 {
      NoCredentialsYet(args, n - 1, ad);
    }
  }

  /** parseArgs' loop, updating the argument data and the command start. */
  method ParseArgs(args: seq<string>, ad0: ArgumentData) returns (r: Result<ParseState, Error>)
    ensures r == ParseArgsResult(args, ad0)
  {
    var ad := ad0;
    var commandStart: nat := 1;
    for idx := 0 to |args|
      invariant ParseUpTo(args, idx, ParseState(ad0, 1)) == Ok(ParseState(ad, commandStart))
    {
      var par := args[idx];
      if par == AllowUntrustedFlag {
        ad := ad.(allowUntrustedCerts := true);
        commandStart := idx + 1;
      }
      if par == "-U" || par == "--username" {
        if idx + 1 >= |args| {
          ParseErrorPersists(args, idx + 1, |args|, ParseState(ad0, 1));
          return Err(Panic(IndexOutOfRange));
        }
        var auth := if ad.auth.None? then Authentication("", "", "") else ad.auth.value;
        ad := ad.(auth := Some(auth.(username := args[idx + 1])));
        commandStart := idx + 2;
      }
      if par == "-P" || par == "--password" {
        if ad.auth.None? {
          ParseErrorPersists(args, idx + 1, |args|, ParseState(ad0, 1));
          return Err(Panic(PasswordBeforeUser));
        }
        if idx + 1 >= |args| {
          ParseErrorPersists(args, idx + 1, |args|, ParseState(ad0, 1));
          return Err(Panic(IndexOutOfRange));
        }
        ad := ad.(auth := Some(ad.auth.value.(password := args[idx + 1])));
        commandStart := idx + 2;
      }
    }
    r := Ok(ParseState(ad, commandStart));
  }

  // ---------------------------------------------------------------------------
  // Credentials from git's configuration and the password prompt
  // ---------------------------------------------------------------------------

  /** `value, _ := getGitProperty(name)`: an error reads as "", but a panic
      (empty output) still stops the program. */
  function PropertyOrEmpty(name: string, sh: Shell): (r: Result<string, Error>)
    ensures r.Err? ==> r.error.Panic?
    ensures GitProperty(name, sh).Ok? ==> r == GitProperty(name, sh)
    ensures GitProperty(name, sh).Err? && !GitProperty(name, sh).error.Panic? ==> r == Ok("")
    ensures GitProperty(name, sh).Err? && GitProperty(name, sh).error.Panic? ==> r == GitProperty(name, sh)
  {
    match GitProperty(name, sh)
    case Ok(v) => Ok(v)
    case Err(e) => if e.Panic? then Err(e) else Ok("")
  }

  /** The credentials taken from `shissue.username` and `shissue.token`:
      present exactly when either is non-empty, with an empty password. */
  function ConfigAuth(sh: Shell): (r: Result<Option<Authentication>, Error>)
    ensures r.Ok? ==>
      var username := PropertyOrEmpty("shissue.username", sh);
      var token := PropertyOrEmpty("shissue.token", sh);
      username.Ok? && token.Ok?
      && (r.value.Some? <==> username.value != "" || token.value != "")
      && (r.value.Some? ==> r.value.value == Authentication(username.value, "", token.value))
    ensures r.Ok? <==> PropertyOrEmpty("shissue.username", sh).Ok? && PropertyOrEmpty("shissue.token", sh).Ok?
    ensures PropertyOrEmpty("shissue.username", sh).Err? ==> r == Err(PropertyOrEmpty("shissue.username", sh).error)
    ensures PropertyOrEmpty("shissue.username", sh).Ok? && PropertyOrEmpty("shissue.token", sh).Err? ==>
      r == Err(PropertyOrEmpty("shissue.token", sh).error)
  {
    var username :- PropertyOrEmpty("shissue.username", sh);
    var token :- PropertyOrEmpty("shissue.token", sh);
    if username != "" || token != "" then Ok(Some(Authentication(username, "", token))) else Ok(None)
  }

  /** With neither key configured (git exits with status 1), there are no
      credentials. */
  lemma ConfigUnset(sh: Shell)
    requires sh(GitConfigCommand("shissue.username")).Exited? && sh(GitConfigCommand("shissue.username")).status == 1
    requires sh(GitConfigCommand("shissue.token")).Exited? && sh(GitConfigCommand("shissue.token")).status == 1
    ensures ConfigAuth(sh) == Ok(None)
  {
  }

  /** Configured values, printed one per line by git, become the credentials. */
  lemma ConfigSet(sh: Shell, username: string, token: string)
    requires sh(GitConfigCommand("shissue.username")) == Exited(0, username + "\n")
    requires sh(GitConfigCommand("shissue.token")) == Exited(0, token + "\n")
    requires username != "" || token != ""
    ensures ConfigAuth(sh) == Ok(Some(Authentication(username, "", token)))
  {
    GitPropertyOfLine("shissue.username", sh, username);
    GitPropertyOfLine("shissue.token", sh, token);
  }

  /** The password prompt: asked for exactly when there is a username and no
      password; the typed line is kept without its surrounding CR/LF. */
  function Prompted(ad: ArgumentData, typed: string): (r: ArgumentData)
    ensures r.allowUntrustedCerts == ad.allowUntrustedCerts
    ensures r.auth.Some? <==> ad.auth.Some?
    ensures ad.auth.Some? && ad.auth.value.username != "" && ad.auth.value.password == "" ==>
      r.auth.value == ad.auth.value.(password := Strs.Trim(typed, {'\n', '\r'}))
    ensures !(ad.auth.Some? && ad.auth.value.username != "" && ad.auth.value.password == "") ==> r == ad
  {
    if ad.auth.Some? && ad.auth.value.username != "" && ad.auth.value.password == "" then
      ad.(auth := Some(ad.auth.value.(password := Strs.Trim(typed, {'\n', '\r'}))))
    else ad
  }

  // ---------------------------------------------------------------------------
  // Command dispatch
  // ---------------------------------------------------------------------------

  datatype CommandKind = HelpCommand | IssuesCommand

  /** CCommand: the function pointer becomes the command's kind. */
  datatype Command = Command(name: string, desc: string, kind: CommandKind)

  /** The `commands` table as main fills it. */
  function Commands(): seq<Command>
  {
    [Command("help", "Print this help text", HelpCommand),
     Command("issues", "List repository issues", IssuesCommand)]
  }

  /** The first command with the given name. */
  function FirstCommand(commands: seq<Command>, word: string): (k: Option<nat>)
    ensures k.Some? ==>
      k.value < |commands| && commands[k.value].name == word
      && forall j :: 0 <= j < k.value ==> commands[j].name != word
    ensures k.None? ==> forall j :: 0 <= j < |commands| ==> commands[j].name != word
  {
    if commands == [] then None
    else if commands[0].name == word then Some(0)
    else match FirstCommand(commands[1..], word)
      case None => None
      case Some(k) => Some(k + 1)
  }

  /** main's loop over the commands, stopping at the first match. */
  method FindCommand(commands: seq<Command>, word: string) returns (k: Option<nat>)
    ensures k == FirstCommand(commands, word)
  {
    for i := 0 to |commands|
      invariant forall j :: 0 <= j < i ==> commands[j].name != word
    {
      if commands[i].name == word {
        FirstMatchIsFirstCommand(commands, word, i);
        return Some(i);
      }
    }
    k := None;
    NoMatchIsNone(commands, word);
  }

  lemma FirstMatchIsFirstCommand(commands: seq<Command>, word: string, i: nat)
    requires i < |commands| && commands[i].name == word
    requires forall j :: 0 <= j < i ==> commands[j].name != word
    ensures FirstCommand(commands, word) == Some(i)
  {
  }

  lemma NoMatchIsNone(commands: seq<Command>, word: string)
    requires forall j :: 0 <= j < |commands| ==> commands[j].name != word
    ensures FirstCommand(commands, word).None?
  {
  }

  /** `help` and `issues` are the two commands. */
  lemma CommandTable()
    ensures FirstCommand(Commands(), "help") == Some(0)
    ensures FirstCommand(Commands(), "issues") == Some(1)
    ensures FirstCommand(Commands(), "frobnicate").None?
  {
  }

  /** What main decides before running a command. */
  datatype Decision =
    | Usage                                                   // no command word: help and a request for one
    | RunCommand(kind: CommandKind, ad: ArgumentData, commandArgs: seq<string>)
    | NoCommand(message: string)

  /** main: credentials from git's configuration, the option scan, help when
      no argument is left for a command, the password prompt, then the first
      command named by the argument at the command start. An unknown name is
      reported by the first argument after the program name. */
  function MainDecision(args: seq<string>, sh: Shell, typed: string): (r: Result<Decision, Error>)
    ensures r.Ok? && r.value.RunCommand? ==>
      |r.value.commandArgs| >= 1 && r.value.commandArgs[0] == Commands()[if r.value.kind == HelpCommand then 0 else 1].name
    ensures r.Ok? && r.value.NoCommand? ==> |args| >= 2 && r.value.message == "No command named " + args[1]
    ensures ConfigAuth(sh).Err? ==> r == Err(ConfigAuth(sh).error)
    ensures ConfigAuth(sh).Ok? ==>
      var p := ParseArgsResult(args, ArgumentData(ConfigAuth(sh).value, false));
      && (p.Err? ==> r == Err(p.error))
      && (p.Ok? ==>
            var cs := p.value.commandStart;
            && (r == Ok(Usage) <==> |args| <= cs)
            && (|args| > cs ==>
                  match FirstCommand(Commands(), args[cs])
                  case Some(k) => r == Ok(RunCommand(Commands()[k].kind, Prompted(p.value.ad, typed), args[cs..]))
                  case None => r == Ok(NoCommand("No command named " + args[1]))))
  {
    var auth :- ConfigAuth(sh);
    var st :- ParseArgsResult(args, ArgumentData(auth, false));
    if |args| <= st.commandStart then Ok(Usage)
    else
      var ad := Prompted(st.ad, typed);
      match FirstCommand(Commands(), args[st.commandStart])
      case Some(k) => Ok(RunCommand(Commands()[k].kind, ad, args[st.commandStart..]))
      case None => Ok(NoCommand("No command named " + args[1]))
  }

  /** A flag after the command word moves the command start past it: here
      nothing is left for a command, so help is printed. */
  lemma FlagAfterCommand(sh: Shell, typed: string)
    requires ConfigAuth(sh) == Ok(None)
    ensures MainDecision(["shissue", "issues", "-U", "bob"], sh, typed) == Ok(Usage)
  {
    var args := ["shissue", "issues", "-U", "bob"];
    var init := ParseState(ArgumentData(None, false), 1);
    assert ParseUpTo(args, 2, init) == Ok(init);
    assert ParseUpTo(args, 3, init) == Ok(ParseState(ArgumentData(Some(Authentication("bob", "", "")), false), 4));
    assert ParseUpTo(args, 4, init) == ParseUpTo(args, 3, init);
  }

  /** `-U bob` followed by a word that is not a flag: the command starts at
      that word and only the username is set. */
  lemma UserThenWord(w: string)
    requires !IsFlag(w)
    ensures ParseArgsResult(["shissue", "-U", "bob", w], ArgumentData(None, false))
      == Ok(ParseState(ArgumentData(Some(Authentication("bob", "", "")), false), 3))
  {
    var args := ["shissue", "-U", "bob", w];
    var init := ParseState(ArgumentData(None, false), 1);
    var after := ParseState(ArgumentData(Some(Authentication("bob", "", "")), false), 3);
    assert ParseUpTo(args, 1, init) == Ok(init);
    assert ParseUpTo(args, 2, init) == Ok(after);
    assert ParseUpTo(args, 3, init) == Ok(after);
    assert ParseUpTo(args, 4, init) == Ok(after);
  }

  /** An unknown command is reported by `os.Args[1]`, which is the first
      flag, not the command word, when flags come first. */
  lemma UnknownCommandNamesSecondArgument(sh: Shell)
    requires ConfigAuth(sh) == Ok(None)
    ensures MainDecision(["shissue", "-U", "bob", "frobnicate"], sh, "secret\n")
      == Ok(NoCommand("No command named -U"))
  {
    var args := ["shissue", "-U", "bob", "frobnicate"];
    var after := ParseState(ArgumentData(Some(Authentication("bob", "", "")), false), 3);
    UserThenWord("frobnicate");
    assert FirstCommand(Commands(), "frobnicate").None?;
    assert args[3] == "frobnicate" && args[1] == "-U";
    assert ParseArgsResult(args, ArgumentData(None, false)) == Ok(after);
    assert "No command named " + args[1] == "No command named -U";
  }

  /** The typed line loses its line end when it becomes the password. */
  lemma TypedPassword()
    ensures Prompted(ArgumentData(Some(Authentication("bob", "", "")), false), "secret\n")
      == ArgumentData(Some(Authentication("bob", "secret", "")), false)
  {
    Strs.TrimLineEnd("secret", '\n', {'\n', '\r'});
    assert "secret" + ['\n'] == "secret\n";
  }

  /** A username on the command line makes main ask for the password. */
  lemma UsernameThenIssues(sh: Shell)
    requires ConfigAuth(sh) == Ok(None)
    ensures MainDecision(["shissue", "-U", "bob", "issues"], sh, "secret\n")
      == Ok(RunCommand(IssuesCommand, ArgumentData(Some(Authentication("bob", "secret", "")), false), ["issues"]))
  {
    var args := ["shissue", "-U", "bob", "issues"];
    UserThenWord("issues");
    TypedPassword();
    assert Commands()[0].name != "issues";
    assert FirstCommand(Commands(), "issues") == Some(1);
    assert args[3..] == ["issues"];
  }

  // ---------------------------------------------------------------------------
  // The issues command: print mode
  // ---------------------------------------------------------------------------

  predicate IsMode(w: string)
  {
    w == "long" || w == "full" || w == "short" || w == "oneline"
  }

  /** The print mode: the first command argument when it names a mode, else "long". */
  function PrintMode(args: seq<string>): (m: string)
    ensures IsMode(m)
    ensures m != "long" ==> |args| > 1 && m == args[1]
    ensures |args| > 1 && IsMode(args[1]) ==> m == args[1]
    ensures !(|args| > 1 && IsMode(args[1])) ==> m == "long"
  {
    if |args| > 1 && IsMode(args[1]) then args[1] else "long"
  }

  datatype Style = LongListing | OneLineListing

  /** How a mode lists issues; an unknown mode is a panic. */
  function ModeStyle(mode: string): (r: Result<Style, Error>)
    ensures r.Ok? <==> IsMode(mode)
    ensures r == Ok(LongListing) <==> mode == "long" || mode == "full"
    ensures r == Ok(OneLineListing) <==> mode == "oneline" || mode == "short"
  {
    if mode == "long" || mode == "full" then Ok(LongListing)
    else if mode == "oneline" || mode == "short" then Ok(OneLineListing)
    else Err(Panic("Mode " + mode + " is unknown. \n"
                   + "Try 'long' or 'full' for a complete detail of issues\n"
                   + "or 'oneline' or 'short' for a simple listing, with only name and number\n"
                   + " or try issues <num> to see the issue of number <num>"))
  }

  /** The unknown-mode panic cannot happen: the chosen mode is always known. */
  lemma ModeAlwaysKnown(args: seq<string>)
    ensures ModeStyle(PrintMode(args)).Ok?
  {
  }

  // ---------------------------------------------------------------------------
  // The issues command: the filter
  // ---------------------------------------------------------------------------

  /** The filter before any word: open issues only, no other criterion. */
  const DefaultFilter := IssueFilter(None, None, true, false, None)

  /** A `labels` value: comma-separated names, each trimmed of spaces, in order. */
  function LabelsOf(word: string): (ls: seq<IssueLabel>)
    ensures var pieces := Strs.Split(word, ',');
      |ls| == |pieces| && forall k :: 0 <= k < |ls| ==> ls[k] == IssueLabel(Strs.Trim(pieces[k], {' '}), 0, 0, 0)
  {
    var pieces := Strs.Split(word, ',');
    seq(|pieces|, k requires 0 <= k < |pieces| => IssueLabel(Strs.Trim(pieces[k], {' '}), 0, 0, 0))
  }

  /** Names joined with commas come back as the label list. */
  lemma LabelsOfJoined(names: seq<string>)
    requires |names| >= 1
    requires forall k :: 0 <= k < |names| ==> ',' !in names[k]
    requires forall k :: 0 <= k < |names| ==> |names[k]| > 0 ==> names[k][0] != ' ' && names[k][|names[k]| - 1] != ' '
    ensures |LabelsOf(Strs.Join(names, ','))| == |names|
    ensures forall k :: 0 <= k < |names| ==> LabelsOf(Strs.Join(names, ','))[k].name == names[k]
  {
    Strs.SplitJoin(names, ',');
    forall k | 0 <= k < |names|
      ensures Strs.Trim(names[k], {' '}) == names[k]
    {
      Strs.TrimUnpadded(names[k], {' '});
    }
  }

  /** The filter words that read the word after them. */
  predicate IsValueWord(w: string)
  {
    w == "labels" || w == "label" || w == "assignee" || w == "creator"
  }

  /** One word of the filter, at `j` (the command name is at 0). `labels`,
      `assignee` and `creator` read the next word, which panics when there is
      none (the length guards as written never fire) and which is itself
      scanned as a word in the next turn. */
  function FilterStep(args: seq<string>, j: nat, f: IssueFilter): (r: Result<IssueFilter, Error>)
    requires 1 <= j < |args|
    ensures (f.getOpen || f.getClosed) && r.Ok? ==> r.value.getOpen || r.value.getClosed
    ensures r.Err? ==> r.error == Panic(IndexOutOfRange)
    ensures IsValueWord(args[j]) ==> (r.Ok? <==> j + 1 < |args|)
    ensures (args[j] == "labels" || args[j] == "label") && r.Ok? ==>
      r.value == f.(labels := Some(LabelsOf(args[j + 1])))
    ensures args[j] == "assignee" && r.Ok? ==> r.value == f.(assignee := Some(args[j + 1]))
    ensures args[j] == "creator" && r.Ok? ==> r.value == f.(creator := Some(args[j + 1]))
    ensures args[j] == "closed" ==> r == Ok(f.(getOpen := false, getClosed := true))
    ensures args[j] == "all" ==> r == Ok(f.(getOpen := true, getClosed := true))
    ensures !IsValueWord(args[j]) && !IsStateWord(args[j]) ==> r == Ok(f)
  {
    var param := args[j];
    if param == "labels" || param == "label" then
      if |args| < j then Err(Panic("Label list not specified!"))
      else if j + 1 >= |args| then Err(Panic(IndexOutOfRange))
      else Ok(f.(labels := Some(LabelsOf(args[j + 1]))))
    else if param == "assignee" then
      if |args| < j then Err(Panic("Assignee not specified!"))
      else if j + 1 >= |args| then Err(Panic(IndexOutOfRange))
      else Ok(f.(assignee := Some(args[j + 1])))
    else if param == "creator" then
      if |args| < j then Err(Panic("Creator not specified!"))
      else if j + 1 >= |args| then Err(Panic(IndexOutOfRange))
      else Ok(f.(creator := Some(args[j + 1])))
    else
      var f1 := if param == "closed" then f.(getClosed := true, getOpen := false) else f;
      if param == "all" then Ok(f1.(getClosed := true, getOpen := true)) else Ok(f1)
  }

  /** The filter after the words args[1..n]. At least one state is always
      asked for. */
  function FilterUpTo(args: seq<string>, n: nat): (r: Result<IssueFilter, Error>)
    requires 1 <= n <= |args|
    ensures r.Ok? ==> r.value.getOpen || r.value.getClosed
  {
    if n == 1 then Ok(DefaultFilter)
    else
      var f :- FilterUpTo(args, n - 1);
      FilterStep(args, n - 1, f)
  }

  /** The filter built from the command's arguments. */
  function FilterResult(args: seq<string>): (r: Result<IssueFilter, Error>)
    ensures r.Ok? ==> r.value.getOpen || r.value.getClosed
  {
    if |args| > 1 then FilterUpTo(args, |args|) else Ok(DefaultFilter)
  }

  predicate IsStateWord(w: string)
  {
    w == "closed" || w == "all"
  }

  /** `args[k]` is the last state word before position `n`. */
  predicate LastStateWordAt(args: seq<string>, k: int, n: int)
  {
    1 <= k < n <= |args| && IsStateWord(args[k]) && forall j :: k < j < n ==> !IsStateWord(args[j])
  }

  /** The last state word decides: `closed` asks for closed issues only, `all`
      for both, and with neither the filter stays open-only. A value word
      (after `assignee`, say) counts as well. */
  lemma {:induction false} LastStateWordWins(args: seq<string>, n: nat)
    requires 1 <= n <= |args| && FilterUpTo(args, n).Ok?
    ensures var f := FilterUpTo(args, n).value;
      && ((forall k :: 1 <= k < n ==> !IsStateWord(args[k])) ==> f.getOpen && !f.getClosed)
      && (forall k :: LastStateWordAt(args, k, n) ==> f.getClosed && (f.getOpen <==> args[k] == "all"))
  {
    if n > 1 {
      LastStateWordWins(args, n - 1);
      var prev := FilterUpTo(args, n - 1).value;
      assert FilterUpTo(args, n) == FilterStep(args, n - 1, prev);
      StateStep(args, n - 1, prev);
      LastStateWordStep(args, n, prev, FilterUpTo(args, n).value);
    }
  }

  /** The induction step of LastStateWordWins, on the two filters alone. */
  lemma LastStateWordStep(args: seq<string>, n: nat, prev: IssueFilter, f: IssueFilter)
    requires 2 <= n <= |args|
    requires (forall k :: 1 <= k < n - 1 ==> !IsStateWord(args[k])) ==> prev.getOpen && !prev.getClosed
    requires forall k :: LastStateWordAt(args, k, n - 1) ==> prev.getClosed && (prev.getOpen <==> args[k] == "all")
    requires if IsStateWord(args[n - 1]) then f.getClosed && (f.getOpen <==> args[n - 1] == "all")
      else f.getOpen == prev.getOpen && f.getClosed == prev.getClosed
    ensures (forall k :: 1 <= k < n ==> !IsStateWord(args[k])) ==> f.getOpen && !f.getClosed
    ensures forall k :: LastStateWordAt(args, k, n) ==> f.getClosed && (f.getOpen <==> args[k] == "all")
  {
    forall k | LastStateWordAt(args, k, n)
      ensures f.getClosed && (f.getOpen <==> args[k] == "all")
    {
      if k < n - 1 {
        assert !IsStateWord(args[n - 1]);
        assert LastStateWordAt(args, k, n - 1);
        assert prev.getClosed && (prev.getOpen <==> args[k] == "all");
      } else {
        assert IsStateWord(args[n - 1]);
      }
    }
    if forall k :: 1 <= k < n ==> !IsStateWord(args[k]) {
      assert !IsStateWord(args[n - 1]);
    }
  }

  /** One word's effect on the states asked for. */
  lemma StateStep(args: seq<string>, j: nat, f: IssueFilter)
    requires 1 <= j < |args| && FilterStep(args, j, f).Ok?
    ensures var g := FilterStep(args, j, f).value;
      if IsStateWord(args[j]) then g.getClosed && (g.getOpen <==> args[j] == "all")
      else g.getOpen == f.getOpen && g.getClosed == f.getClosed
  {
  }

  /** `assignee closed` sets the assignee to "closed" and then, rescanning the
      value, asks for closed issues only. */
  lemma ValueWordRescanned()
    ensures FilterResult(["issues", "assignee", "closed"]) == Ok(IssueFilter(None, Some("closed"), false, true, None))
  {
    var args := ["issues", "assignee", "closed"];
    assert FilterUpTo(args, 2) == Ok(DefaultFilter.(assignee := Some("closed")));
  }

  /** The loop that turns a `labels` value into the label list. */
  method SplitLabels(word: string) returns (labelList: seq<IssueLabel>)
    ensures labelList == LabelsOf(word)
  {
    var pieces := Strs.Split(word, ',');
    labelList := [];
    for k := 0 to |pieces|
      invariant |labelList| == k
      invariant forall i :: 0 <= i < k ==> labelList[i] == IssueLabel(Strs.Trim(pieces[i], {' '}), 0, 0, 0)
    {
      labelList := labelList + [IssueLabel(Strs.Trim(pieces[k], {' '}), 0, 0, 0)];
    }
  }

  /** The filter loop over the words after the command name. */
  method BuildFilter(args: seq<string>) returns (r: Result<IssueFilter, Error>)
    ensures r == FilterResult(args)
  {
    var filter := DefaultFilter;
    if |args| > 1 {
      for j := 1 to |args|
        invariant FilterUpTo(args, j) == Ok(filter)
      {
        var param := args[j];
        if param == "labels" || param == "label" {
          if j + 1 >= |args| {
            FilterErrorPersists(args, j + 1, |args|);
            return Err(Panic(IndexOutOfRange));
          }
          var labelList := SplitLabels(args[j + 1]);
          filter := filter.(labels := Some(labelList));
          continue;
        }
        if param == "assignee" {
          if j + 1 >= |args| {
            FilterErrorPersists(args, j + 1, |args|);
            return Err(Panic(IndexOutOfRange));
          }
          filter := filter.(assignee := Some(args[j + 1]));
          continue;
        }
        if param == "creator" {
          if j + 1 >= |args| {
            FilterErrorPersists(args, j + 1, |args|);
            return Err(Panic(IndexOutOfRange));
          }
          filter := filter.(creator := Some(args[j + 1]));
          continue;
        }
        if param == "closed" {
          filter := filter.(getClosed := true, getOpen := false);
        }
        if param == "all" {
          filter := filter.(getClosed := true, getOpen := true);
        }
      }
    }
    r := Ok(filter);
  }

  lemma {:induction false} FilterErrorPersists(args: seq<string>, n: nat, m: nat)
    requires 1 <= n <= m <= |args| && FilterUpTo(args, n).Err?
    ensures FilterUpTo(args, m) == FilterUpTo(args, n)
    decreases m - n
  {
    if n < m {
      FilterErrorPersists(args, n, m - 1);
    }
  }

  // ---------------------------------------------------------------------------
  // Label badges: the background colour
  // ---------------------------------------------------------------------------

  /** Go's uint8 addition and multiplication wrap around. */
  function AddU8(a: uint8, b: uint8): uint8 { (a + b) % 256 }
  function MulU8(a: uint8, b: uint8): uint8 { (a * b) % 256 }

  /** The xterm 256-colour cube entry for a colour: each component scaled to
      0..5 by integer division by 51, then 16 + 36r + 6g + b, all in uint8
      arithmetic. It never wraps: the entry is the exact cube index. */
  function ColorIndex(r: uint8, g: uint8, b: uint8): (idx: uint8)
    ensures idx == 16 + 36 * (r / 51) + 6 * (g / 51) + (b / 51)
    ensures 16 <= idx <= 231
  {
    var cr, cg, cb := r / 51, g / 51, b / 51;
    CubeNoWrap(cr, cg, cb);
    AddU8(AddU8(AddU8(16, MulU8(36, cr)), MulU8(6, cg)), cb)
  }

  /** With coordinates 0..5 the uint8 sum 16 + 36r + 6g + b stays below 256. */
  lemma CubeNoWrap(cr: uint8, cg: uint8, cb: uint8)
    requires cr <= 5 && cg <= 5 && cb <= 5
    ensures AddU8(AddU8(AddU8(16, MulU8(36, cr)), MulU8(6, cg)), cb) == 16 + 36 * cr + 6 * cg + cb
  {
    assert MulU8(36, cr) == 36 * cr && MulU8(6, cg) == 6 * cg;
    assert AddU8(16, MulU8(36, cr)) == 16 + 36 * cr;
    assert AddU8(16 + 36 * cr, MulU8(6, cg)) == 16 + 36 * cr + 6 * cg;
  }

  /** The cube coordinates can be read back from the index. */
  lemma ColorIndexDecode(r: uint8, g: uint8, b: uint8)
    ensures (ColorIndex(r, g, b) - 16) / 36 == r / 51
    ensures (ColorIndex(r, g, b) - 16) / 6 % 6 == g / 51
    ensures (ColorIndex(r, g, b) - 16) % 6 == b / 51
  {
    var cr, cg, cb := r / 51, g / 51, b / 51;
    assert cr <= 5 && cg <= 5 && cb <= 5;
    var d := ColorIndex(r, g, b) - 16;
    assert d == 36 * cr + 6 * cg + cb;
    CubeDigits(cr, cg, cb);
  }

  lemma CubeDigits(cr: nat, cg: nat, cb: nat)
    requires cr < 6 && cg < 6 && cb < 6
    ensures (36 * cr + 6 * cg + cb) / 36 == cr
    ensures (36 * cr + 6 * cg + cb) / 6 == 6 * cr + cg
    ensures (6 * cr + cg) % 6 == cg
    ensures (36 * cr + 6 * cg + cb) % 6 == cb
  {
  }

  /** The dark-text test of the 256-colour branch: `uint8(float32(cG)*2.5)`
      truncates, so the green weight is floor(5cG/2). */
  predicate DarkText256(r: uint8, g: uint8, b: uint8)
  {
    r / 51 + (5 * (g / 51)) / 2 + b / 51 > 9
  }

  /** The dark-text test of the true-colour branch, in exact arithmetic:
      cR + 2.5cG + cB > 9, scaled by two. */
  predicate DarkTextTrueColor(r: uint8, g: uint8, b: uint8)
  {
    2 * (r / 51) + 5 * (g / 51) + 2 * (b / 51) > 18
  }

  /** A lighter colour never loses the black text on a 256-colour terminal. */
  lemma DarkText256Monotone(r: uint8, g: uint8, b: uint8, r2: uint8, g2: uint8, b2: uint8)
    requires r <= r2 && g <= g2 && b <= b2
    ensures DarkText256(r, g, b) ==> DarkText256(r2, g2, b2)
  {
    assert r / 51 <= r2 / 51 && g / 51 <= g2 / 51 && b / 51 <= b2 / 51;
    assert (5 * (g / 51)) / 2 <= (5 * (g2 / 51)) / 2;
  }

  /** A lighter colour never loses the black text on a true-colour terminal. */
  lemma DarkTextTrueColorMonotone(r: uint8, g: uint8, b: uint8, r2: uint8, g2: uint8, b2: uint8)
    requires r <= r2 && g <= g2 && b <= b2
    ensures DarkTextTrueColor(r, g, b) ==> DarkTextTrueColor(r2, g2, b2)
  {
    assert r / 51 <= r2 / 51 && g / 51 <= g2 / 51 && b / 51 <= b2 / 51;
  }

  /** Dark text on a 256-colour terminal implies dark text on a true-colour one... */
  lemma DarkTextImplication(r: uint8, g: uint8, b: uint8)
    ensures DarkText256(r, g, b) ==> DarkTextTrueColor(r, g, b)
  {
    var cg := g / 51;
    assert 2 * ((5 * cg) / 2) <= 5 * cg;
  }

  /** ...but not the other way round: the truncation makes the two branches
      disagree on (0, 153, 102). */
  lemma DarkTextBranchesDiffer()
    ensures DarkTextTrueColor(0, 153, 102) && !DarkText256(0, 153, 102)
  {
  }

  const Esc: char := 27 as char
  const Reset := [Esc] + "[0m"
  const BlackText := [Esc] + "[30m"

  /** The escape sequence that sets the 256-colour background: the number
      between `ESC[48;5;` and `m` reads back as the cube index. */
  function Back256(r: uint8, g: uint8, b: uint8): (out: string)
    ensures |out| >= 8 && out[..7] == [Esc] + "[48;5;" && out[|out| - 1] == 'm'
    ensures Strs.ParseUint64(out[7..|out| - 1]) == Some(ColorIndex(r, g, b) as nat)
  {
    var idx := ColorIndex(r, g, b);
    var out := [Esc] + "[48;5;" + Strs.IntToString(idx) + "m";
    assert out[7..|out| - 1] == Strs.NatToString(idx);
    Strs.ParseUint64OfNat(idx);
    out
  }

  /** Three decimal spellings joined by ';' split back into the three. */
  lemma SplitThreeNumbers(x: nat, y: nat, z: nat)
    ensures var dx, dy, dz := Strs.NatToString(x), Strs.NatToString(y), Strs.NatToString(z);
      Strs.Split(dx + [';'] + dy + [';'] + dz, ';') == [dx, dy, dz]
  {
    var dx, dy, dz := Strs.NatToString(x), Strs.NatToString(y), Strs.NatToString(z);
    assert ';' !in dx && ';' !in dy && ';' !in dz by {
      assert Strs.AllDigits(dx) && Strs.AllDigits(dy) && Strs.AllDigits(dz);
    }
    assert dx + [';'] + dy + [';'] + dz == dx + [';'] + (dy + [';'] + dz);
    Strs.SplitPrefix(dx, ';', dy + [';'] + dz);
    Strs.SplitPrefix(dy, ';', dz);
    Strs.SplitNoSep(dz, ';');
  }

  /** The escape sequence that sets the 24-bit background: the text between
      `ESC[48;2;` and `m` splits at ';' into three numbers that read back as
      the red, green and blue components. */
  function BackTrue(r: uint8, g: uint8, b: uint8): (out: string)
    ensures |out| >= 8 && out[..7] == [Esc] + "[48;2;" && out[|out| - 1] == 'm'
    ensures var parts := Strs.Split(out[7..|out| - 1], ';');
      && |parts| == 3
      && Strs.ParseUint64(parts[0]) == Some(r as nat)
      && Strs.ParseUint64(parts[1]) == Some(g as nat)
      && Strs.ParseUint64(parts[2]) == Some(b as nat)
  {
    var dr, dg, db := Strs.NatToString(r), Strs.NatToString(g), Strs.NatToString(b);
    assert Strs.IntToString(r) == dr && Strs.IntToString(g) == dg && Strs.IntToString(b) == db;
    var middle := dr + [';'] + dg + [';'] + db;
    var out := [Esc] + "[48;2;" + middle + "m";
    assert out == [Esc] + "[48;2;" + Strs.IntToString(r) + ";" + Strs.IntToString(g) + ";" + Strs.IntToString(b) + "m";
    assert out[7..|out| - 1] == middle;
    SplitThreeNumbers(r, g, b);
    Strs.ParseUint64OfNat(r);
    Strs.ParseUint64OfNat(g);
    Strs.ParseUint64OfNat(b);
    out
  }

  /** fnPrintBackColor on a 256-colour terminal: the cube entry as background,
      black text exactly over light colours, the label text intact, then a
      reset. */
  function BackColor256(s: string, r: uint8, g: uint8, b: uint8): (out: string)
    ensures |s| + |Reset| <= |out| && out[|out| - |Reset| - |s|..] == s + Reset
    ensures var head := out[..|out| - |Reset| - |s|];
      && (DarkText256(r, g, b) <==> head == Back256(r, g, b) + BlackText)
      && (!DarkText256(r, g, b) ==> head == Back256(r, g, b))
  {
    BadgeShape(Back256(r, g, b), s, DarkText256(r, g, b));
    Back256(r, g, b) + (if DarkText256(r, g, b) then BlackText + s else s) + Reset
  }

  /** fnPrintBackColor on a true-colour terminal: the exact colour as
      background, black text exactly over light colours, the label text
      intact, then a reset. */
  function BackColorTrue(s: string, r: uint8, g: uint8, b: uint8): (out: string)
    ensures |s| + |Reset| <= |out| && out[|out| - |Reset| - |s|..] == s + Reset
    ensures var head := out[..|out| - |Reset| - |s|];
      && (DarkTextTrueColor(r, g, b) <==> head == BackTrue(r, g, b) + BlackText)
      && (!DarkTextTrueColor(r, g, b) ==> head == BackTrue(r, g, b))
  {
    BadgeShape(BackTrue(r, g, b), s, DarkTextTrueColor(r, g, b));
    BackTrue(r, g, b) + (if DarkTextTrueColor(r, g, b) then BlackText + s else s) + Reset
  }

  /** A badge splits into the colour prefix with the black-text code when
      `dark`, and the text followed by a reset. */
  lemma BadgeShape(prefix: string, s: string, dark: bool)
    ensures var out := prefix + (if dark then BlackText + s else s) + Reset;
      && |s| + |Reset| <= |out| && out[|out| - |Reset| - |s|..] == s + Reset
      && out[..|out| - |Reset| - |s|] == (if dark then prefix + BlackText else prefix)
  {
    var out := prefix + (if dark then BlackText + s else s) + Reset;
    if dark {
      assert out == (prefix + BlackText) + (s + Reset);
    } else {
      assert out == prefix + (s + Reset);
    }
  }

  /** A white label gets black text and the last cube entry. */
  lemma WhiteBadge()
    ensures ColorIndex(255, 255, 255) == 231 && DarkText256(255, 255, 255)
  {
    assert 255 / 51 == 5;
  }

  // ---------------------------------------------------------------------------
  // The issues command
  // ---------------------------------------------------------------------------

  /** What the issues command shows. */
  datatype Shown =
    | IssuesHelp
    | SingleIssue(issue: Issue, comments: seq<IssueComment>)
    | IssueList(mode: string, filter: IssueFilter, issues: seq<Issue>)

  const NoIssueMessage := "No issue found with that number"

  /** A nil list is shown as an empty one. */
  function OrEmpty<T>(xs: Option<seq<T>>): (r: seq<T>)
    ensures xs.Some? ==> r == xs.value
    ensures xs.None? ==> r == []
  {
    if xs.Some? then xs.value else []
  }

  /** What the numbered branch shows for a host with contents `d`: the issue
      and its comments (nil read as none). A host error is a panic with its
      message, and so is a nil issue. */
  function NumberedResult(d: HostData, auth: Option<Authentication>, n: uint, net: Network)
    : (r: Result<Shown, Error>)
    ensures r.Err? ==> r.error.Panic?
    ensures OneIssueOf(d, auth, n, net).Err? ==> r == Err(Panic(OneIssueOf(d, auth, n, net).error.err))
    ensures OneIssueOf(d, auth, n, net) == Ok(None) ==> r == Err(Panic(NoIssueMessage))
    ensures OneIssueOf(d, auth, n, net).Ok? && OneIssueOf(d, auth, n, net).value.Some? ==>
      var i := OneIssueOf(d, auth, n, net).value.value;
      var cs := CommentsOf(d, auth, n, net);
      && (cs.Ok? ==> r == Ok(SingleIssue(i, OrEmpty(cs.value))))
      && (cs.Err? ==> r == Err(Panic(cs.error.err)))
  {
    match OneIssueOf(d, auth, n, net)
    case Err(e) => Err(Panic(e.Message()))
    case Ok(None) => Err(Panic(NoIssueMessage))
    case Ok(Some(i)) =>
      match CommentsOf(d, auth, n, net)
      case Err(e) => Err(Panic(e.Message()))
      case Ok(cs) => Ok(SingleIssue(i, OrEmpty(cs)))
  }

  /** What the listing branch shows for a host with contents `d`: the issues
      the host returns for the filter built from the words, in the chosen
      print mode. A filter panic stops first; a host error is a panic. */
  function ListResult(d: HostData, auth: Option<Authentication>, args: seq<string>, net: Network)
    : (r: Result<Shown, Error>)
    ensures r.Err? ==> r.error.Panic?
    ensures FilterResult(args).Err? ==> r == Err(FilterResult(args).error)
    ensures FilterResult(args).Ok? ==>
      var listed := AllIssuesOf(d, auth, FilterResult(args).value, net);
      && (listed.Ok? ==> r == Ok(IssueList(PrintMode(args), FilterResult(args).value, OrEmpty(listed.value))))
      && (listed.Err? ==> r == Err(Panic(listed.error.err)))
  {
    FilterPanics(args);
    match FilterResult(args)
    case Err(e) => Err(e)
    case Ok(f) =>
      match AllIssuesOf(d, auth, f, net)
      case Err(e) => Err(Panic(e.Message()))
      case Ok(issues) => Ok(IssueList(PrintMode(args), f, OrEmpty(issues)))
  }

  /** What the issues command shows: its help without touching any host;
      otherwise, on the host getRepositoryHost resolves, the issue a number
      (ParseUint, base 10) names, or else the filtered listing. */
  function IssuesCommandResult(ad: ArgumentData, args: seq<string>, cwd: Result<string, string>, sh: Shell, net: Network)
    : (r: Result<Shown, Error>)
    ensures r.Err? ==> r.error.Panic?
    ensures |args| > 1 && args[1] == "help" ==> r == Ok(IssuesHelp)
    ensures !(|args| > 1 && args[1] == "help") ==>
      var host := ResolvedData(ad.auth, cwd, sh, net);
      && (host.Err? ==> r == Err(host.error))
      && (host.Ok? && |args| > 1 && Strs.ParseUint64(args[1]).Some? ==>
            r == NumberedResult(host.value, ad.auth, Strs.ParseUint64(args[1]).value, net))
      && (host.Ok? && !(|args| > 1 && Strs.ParseUint64(args[1]).Some?) ==>
            r == ListResult(host.value, ad.auth, args, net))
  {
    if |args| > 1 && args[1] == "help" then Ok(IssuesHelp)
    else
      match ResolvedData(ad.auth, cwd, sh, net)
      case Err(e) => Err(e)
      case Ok(d) =>
        if |args| > 1 && Strs.ParseUint64(args[1]).Some? then NumberedResult(d, ad.auth, Strs.ParseUint64(args[1]).value, net)
        else ListResult(d, ad.auth, args, net)
  }

  /** The numbered branch: the issue with that number and its comments. A
      host error is a panic, and so is a nil issue. */
  method ShowNumbered(h: RepoHost, auth: Option<Authentication>, n: uint, net: Network)
    returns (r: Result<Shown, Error>)
    requires h.Ready()
    ensures r.Err? ==> r.error.Panic?
    ensures Hosts.OneIssue(h, auth, n, net) == Ok(None) ==> r == Err(Panic(NoIssueMessage))
    ensures Hosts.OneIssue(h, auth, n, net).Err? ==> r == Err(Panic(Hosts.OneIssue(h, auth, n, net).error.err))
    ensures r.Ok? ==>
      && r.value.SingleIssue?
      && Hosts.OneIssue(h, auth, n, net) == Ok(Some(r.value.issue))
      && Comments(h, auth, n, net).Ok? && r.value.comments == OrEmpty(Comments(h, auth, n, net).value)
    ensures Hosts.OneIssue(h, auth, n, net).Ok? && Hosts.OneIssue(h, auth, n, net).value.Some? ==>
      var i := Hosts.OneIssue(h, auth, n, net).value.value;
      && (Comments(h, auth, n, net).Ok? ==> r == Ok(SingleIssue(i, OrEmpty(Comments(h, auth, n, net).value))))
      && (Comments(h, auth, n, net).Err? ==> r == Err(Panic(Comments(h, auth, n, net).error.err)))
    ensures r == NumberedResult(h.Data(), auth, n, net)
  {
    var issue := DownloadIssue(h, auth, n, net);
    if issue.Err? {
      return Err(Panic(issue.error.Message()));
    }
    if issue.value.None? {
      return Err(Panic(NoIssueMessage));
    }
    var comments := DownloadIssueComments(h, auth, n, net);
    if comments.Err? {
      return Err(Panic(comments.error.Message()));
    }
    r := Ok(SingleIssue(issue.value.value, OrEmpty(comments.value)));
  }

  /** The listing branch: the filter built from the words, then every issue
      the host returns for it, in the chosen print mode. */
  method ShowList(h: RepoHost, auth: Option<Authentication>, args: seq<string>, net: Network)
    returns (r: Result<Shown, Error>)
    requires h.Ready()
    ensures r.Err? ==> r.error.Panic?
    ensures FilterResult(args).Err? ==> r == Err(FilterResult(args).error)
    ensures r.Ok? ==>
      && r.value.IssueList?
      && FilterResult(args) == Ok(r.value.filter)
      && r.value.mode == PrintMode(args)
      && AllIssues(h, auth, r.value.filter, net).Ok?
      && r.value.issues == OrEmpty(AllIssues(h, auth, r.value.filter, net).value)
    ensures FilterResult(args).Ok? ==>
      var listed := AllIssues(h, auth, FilterResult(args).value, net);
      && (listed.Ok? ==> r == Ok(IssueList(PrintMode(args), FilterResult(args).value, OrEmpty(listed.value))))
      && (listed.Err? ==> r == Err(Panic(listed.error.err)))
    ensures r == ListResult(h.Data(), auth, args, net)
  {
    var printMode := "long";
    if |args| > 1 {
      if args[1] == "long" || args[1] == "full" || args[1] == "short" || args[1] == "oneline" {
        printMode := args[1];
      }
    }
    var filter := BuildFilter(args);
    if filter.Err? {
      FilterPanics(args);
      return Err(filter.error);
    }
    var issues := DownloadAllIssues(h, auth, filter.value, net);
    if issues.Err? {
      return Err(Panic(issues.error.Message()));
    }
    r := Ok(IssueList(printMode, filter.value, OrEmpty(issues.value)));
  }

  /** The two branches of _printIssues once the host is known. */
  method ShowOnHost(h: RepoHost, ghost d: HostData, auth: Option<Authentication>, args: seq<string>, net: Network)
    returns (r: Result<Shown, Error>)
    requires h.Ready() && d == h.Data()
    ensures r == if |args| > 1 && Strs.ParseUint64(args[1]).Some?
      then NumberedResult(d, auth, Strs.ParseUint64(args[1]).value, net)
      else ListResult(d, auth, args, net)
  {
    if |args| > 1 && Strs.ParseUint64(args[1]).Some? {
      r := ShowNumbered(h, auth, Strs.ParseUint64(args[1]).value, net);
    } else {
      r := ShowList(h, auth, args, net);
    }
  }

  /** _printIssues: `help` prints the command's help without touching any
      host; otherwise the host is resolved; a number (ParseUint, base 10)
      shows that issue and its comments; anything else lists the issues. */
  method PrintIssues(ad: ArgumentData, args: seq<string>, cwd: Result<string, string>, sh: Shell, net: Network)
    returns (r: Result<Shown, Error>)
    ensures |args| > 1 && args[1] == "help" ==> r == Ok(IssuesHelp)
    ensures !(|args| > 1 && args[1] == "help") && ResolveHost(ad.auth, cwd, sh, net).Err? ==>
      r == Err(ResolveHost(ad.auth, cwd, sh, net).error)
    ensures r.Err? ==> r.error.Panic?
    ensures r.Ok? && r.value.SingleIssue? ==> |args| > 1 && Strs.ParseUint64(args[1]).Some?
    ensures r.Ok? && r.value.IssueList? ==>
      && !(|args| > 1 && Strs.ParseUint64(args[1]).Some?)
      && FilterResult(args) == Ok(r.value.filter)
      && r.value.mode == PrintMode(args)
    ensures (!(|args| > 1 && (args[1] == "help" || Strs.ParseUint64(args[1]).Some?))
             && ResolveHost(ad.auth, cwd, sh, net).Ok? && FilterResult(args).Err?) ==>
      r == Err(FilterResult(args).error)
    ensures r == IssuesCommandResult(ad, args, cwd, sh, net)
  {
    if |args| > 1 && args[1] == "help" {
      r := Ok(IssuesHelp);
    } else {
      var host := GetRepositoryHost(ad.auth, cwd, sh, net);
      if host.Err? {
        r := Err(host.error);
      } else {
        ghost var d := host.value.Data();
        IssuesCommandOnHost(ad, args, cwd, sh, net, d);
        r := ShowOnHost(host.value, d, ad.auth, args, net);
      }
    }
    assert r == IssuesCommandResult(ad, args, cwd, sh, net);
    IssuesCommandShowsIssue(ad, args, cwd, sh, net);
    IssuesCommandShowsList(ad, args, cwd, sh, net);
    IssuesCommandHostError(ad, args, cwd, sh, net);
    IssuesCommandFilterError(ad, args, cwd, sh, net);
  }

  /** On a resolved host the issues command shows the numbered issue or the
      listing. */
  lemma IssuesCommandOnHost(ad: ArgumentData, args: seq<string>, cwd: Result<string, string>, sh: Shell, net: Network, d: HostData)
    requires !(|args| > 1 && args[1] == "help") && ResolvedData(ad.auth, cwd, sh, net) == Ok(d)
    ensures IssuesCommandResult(ad, args, cwd, sh, net) ==
      if |args| > 1 && Strs.ParseUint64(args[1]).Some? then NumberedResult(d, ad.auth, Strs.ParseUint64(args[1]).value, net)
      else ListResult(d, ad.auth, args, net)
  {
  }

  /** A host that cannot be resolved is the issues command's error, unless
      help was asked for. */
  lemma IssuesCommandHostError(ad: ArgumentData, args: seq<string>, cwd: Result<string, string>, sh: Shell, net: Network)
    ensures !(|args| > 1 && args[1] == "help") && ResolveHost(ad.auth, cwd, sh, net).Err? ==>
      IssuesCommandResult(ad, args, cwd, sh, net) == Err(ResolveHost(ad.auth, cwd, sh, net).error)
  {
  }

  /** A single issue is shown only for a numeric first argument. */
  lemma IssuesCommandShowsIssue(ad: ArgumentData, args: seq<string>, cwd: Result<string, string>, sh: Shell, net: Network)
    ensures var r := IssuesCommandResult(ad, args, cwd, sh, net);
      r.Ok? && r.value.SingleIssue? ==> |args| > 1 && Strs.ParseUint64(args[1]).Some?
  {
  }

  /** A listing is shown only for a first argument that is not a number, with
      the filter and mode the arguments give. */
  lemma IssuesCommandShowsList(ad: ArgumentData, args: seq<string>, cwd: Result<string, string>, sh: Shell, net: Network)
    ensures var r := IssuesCommandResult(ad, args, cwd, sh, net);
      r.Ok? && r.value.IssueList? ==>
        && !(|args| > 1 && Strs.ParseUint64(args[1]).Some?)
        && FilterResult(args) == Ok(r.value.filter)
        && r.value.mode == PrintMode(args)
  {
  }

  /** A malformed filter on a resolved host is the issues command's error. */
  lemma IssuesCommandFilterError(ad: ArgumentData, args: seq<string>, cwd: Result<string, string>, sh: Shell, net: Network)
    ensures (!(|args| > 1 && (args[1] == "help" || Strs.ParseUint64(args[1]).Some?))
             && ResolveHost(ad.auth, cwd, sh, net).Ok? && FilterResult(args).Err?) ==>
      IssuesCommandResult(ad, args, cwd, sh, net) == Err(FilterResult(args).error)
  {
  }

  /** The filter's only failures are panics. */
  lemma FilterPanics(args: seq<string>)
    ensures FilterResult(args).Err? ==> FilterResult(args).error.Panic?
  {
    if |args| > 1 {
      FilterUpToPanics(args, |args|);
    }
  }

  lemma {:induction false} FilterUpToPanics(args: seq<string>, n: nat)
    requires 1 <= n <= |args|
    ensures FilterUpTo(args, n).Err? ==> FilterUpTo(args, n).error.Panic?
  {
    if n > 1 {
      FilterUpToPanics(args, n - 1);
    }
  }

  /** What a run of the program ends with. */
  datatype Outcome =
    | PrintedUsage
    | PrintedHelp
    | UnknownCommand(message: string)
    | Ran(shown: Shown)

  /** main: the decision, then the chosen command. Inputs stand for the
      outside world: `sh` runs git, `typed` is the line typed at the password
      prompt, `cwd` the working directory (or the error of looking it up) and
      `net` the hosts. */
  method Run(args: seq<string>, sh: Shell, typed: string, cwd: Result<string, string>, net: Network)
    returns (r: Result<Outcome, Error>)
    ensures var d := MainDecision(args, sh, typed);
      && (d.Err? ==> r == Err(d.error))
      && (d == Ok(Usage) ==> r == Ok(PrintedUsage))
      && (d.Ok? && d.value.NoCommand? ==> r == Ok(UnknownCommand(d.value.message)))
      && (d.Ok? && d.value.RunCommand? && d.value.kind == HelpCommand ==> r == Ok(PrintedHelp))
      && (d.Ok? && d.value.RunCommand? && d.value.kind == IssuesCommand ==>
            && (r.Ok? ==> r.value.Ran?) && (r.Err? ==> r.error.Panic?)
            && (var cargs := d.value.commandArgs;
                && (|cargs| > 1 && cargs[1] == "help" ==> r == Ok(Ran(IssuesHelp)))
                && (!(|cargs| > 1 && cargs[1] == "help") && ResolveHost(d.value.ad.auth, cwd, sh, net).Err? ==>
                      r == Err(ResolveHost(d.value.ad.auth, cwd, sh, net).error))))
    ensures var d := MainDecision(args, sh, typed);
      d.Ok? && d.value.RunCommand? && d.value.kind == IssuesCommand ==>
        var shown := IssuesCommandResult(d.value.ad, d.value.commandArgs, cwd, sh, net);
        && (shown.Ok? ==> r == Ok(Ran(shown.value)))
        && (shown.Err? ==> r == Err(shown.error))
  {
    var auth := ConfigAuth(sh);
    if auth.Err? {
      return Err(auth.error);
    }
    var parsed := ParseArgs(args, ArgumentData(auth.value, false));
    if parsed.Err? {
      return Err(parsed.error);
    }
    var commandStart := parsed.value.commandStart;
    if |args| <= commandStart {
      return Ok(PrintedUsage);
    }
    var ad := Prompted(parsed.value.ad, typed);
    var commands := Commands();
    var k := FindCommand(commands, args[commandStart]);
    if k.None? {
      return Ok(UnknownCommand("No command named " + args[1]));
    }
    match commands[k.value].kind
    case HelpCommand =>
      r := Ok(PrintedHelp);
    case IssuesCommand =>
      var shown := PrintIssues(ad, args[commandStart..], cwd, sh, net);
      if shown.Err? {
        return Err(shown.error);
      }
      r := Ok(Ran(shown.value));
  }
}
