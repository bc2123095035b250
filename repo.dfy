/** The host-independent records of shissue (repo.go): credentials, the
    repository being looked at, issues, labels, comments, the issue filter and
    the errors the hosts report. */
module Repo {
  import opened Wrappers
  import Strs

  /** Go's uint8. */
  type uint8 = x: int | 0 <= x < 0x100

  /** Go's uint on a 64-bit platform. */
  type uint = x: int | 0 <= x < 0x1_0000_0000_0000_0000

  /** TAuthentication. A nil *TAuthentication is `None` wherever one is passed. */
  datatype Authentication = Authentication(username: string, password: string, token: string)

  /** The value held by a TRepository at one moment (its `host` field is never
      assigned by any code shown, so it is not part of the model). */
  datatype RepoState = RepoState(
    name: string,
    desc: string,
    author: string,
    url: string,
    baseUrl: string,
    apiUrl: string)

  /** TRepository: created by the remote locator and then overwritten, through
      a pointer, by whichever host's Initialize succeeds. */
  class Repository {
    var name: string
    var desc: string
    var author: string
    var url: string
    var baseUrl: string
    var apiUrl: string

    function State(): RepoState
      reads this
    {
      RepoState(name, desc, author, url, baseUrl, apiUrl)
    }

    constructor (st: RepoState)
      ensures State() == st
    {
      name, desc, author := st.name, st.desc, st.author;
      url, baseUrl, apiUrl := st.url, st.baseUrl, st.apiUrl;
    }
  }

  /** TIssueLabel: a name and three colour bytes, kept apart from the name. */
  datatype IssueLabel = IssueLabel(name: string, colorR: uint8, colorG: uint8, colorB: uint8)

  /** time.Time, never inspected by the core: an opaque stamp. */
  datatype Time = Time(stamp: string)

  /** TIssue. `id` is the host's internal id, `number` the user-facing one. */
  datatype Issue = Issue(
    id: uint,
    number: uint,
    name: string,
    url: string,
    author: string,
    assignees: seq<string>,
    labels: seq<IssueLabel>,
    creation: Time,
    content: string,
    isClosed: bool)

  /** TIssueComment. */
  datatype IssueComment = IssueComment(id: uint, url: string, author: string, creation: Time, content: string)

  /** TIssueFilter. A `None` criterion (Go's nil pointer) is not applied. */
  datatype IssueFilter = IssueFilter(
    labels: Option<seq<IssueLabel>>,
    assignee: Option<string>,
    getOpen: bool,
    getClosed: bool,
    creator: Option<string>)

  /** What the filter is documented to mean for one issue: every criterion that
      is present holds, and the issue's state is one of those asked for. No
      code shown evaluates a filter locally; hosts translate it (or ignore it). */
  /** The issue carries a label with this name. */
  predicate HasLabel(i: Issue, name: string)
  {
    exists j :: 0 <= j < |i.labels| && i.labels[j].name == name
  }

  predicate Admits(f: IssueFilter, i: Issue)
  {
    && (f.labels.Some? ==> forall k :: 0 <= k < |f.labels.value| ==> HasLabel(i, f.labels.value[k].name))
    && (f.assignee.Some? ==> f.assignee.value in i.assignees)
    && (f.creator.Some? ==> f.creator.value == i.author)
    && (if i.isClosed then f.getClosed else f.getOpen)
  }

  /** The dynamic types of the errors the core returns. */
  datatype Error =
    | RepoLimitError(err: string)                  // errRepoLimit (get-repo.go)
    | GithubRepoError(err: string)                 // errGithubRepo (github.go)
    | RepoConnectError(err: string, errorCode: int) // RepoConnectError (repo.go)
    | ForeignError(err: string)                    // an error from exec, net/http, encoding/json or go-gitlab
    | Panic(err: string)                           // the program stops with this panic message
  {
    /** Error(): the stored message, unchanged, whatever the error's type. */
    function Message(): (m: string)
      ensures m == this.err
    {
      err
    }

    /** The integer code an error carries: only a RepoConnectError has one. */
    function Code(): (c: Option<int>)
      ensures c.Some? <==> this.RepoConnectError?
      ensures c.Some? ==> c.value == this.errorCode
    {
      if this.RepoConnectError? then Some(errorCode) else None
    }
  }

  /** The message of Go's runtime panic for a slice bound past the end. */
  const SliceOutOfRange := "runtime error: slice bounds out of range"
  /** The message of Go's runtime panic for an index past the end. */
  const IndexOutOfRange := "runtime error: index out of range"
  /** The message of Go's runtime panic for reading through a nil pointer. */
  const NilDereference := "runtime error: invalid memory address or nil pointer dereference"

  // ---------------------------------------------------------------------------
  // Label colours written as hex text
  // ---------------------------------------------------------------------------

  /** The colour written as `rrggbb`: characters [0:2], [2:4] and [4:6], each
      parsed as a hex byte with a parse error read as 0 (github.go:203-205,
      gitlab.go:143-145). Text shorter than six characters makes Go's slicing
      panic: None here. Characters past the sixth are ignored. */
  function DecodeColor(c: string): (rgb: Option<(uint8, uint8, uint8)>)
    ensures rgb.Some? <==> |c| >= 6
  {
    if |c| < 6 then None
    else Some((Strs.ParseHexPair(c[0..2]), Strs.ParseHexPair(c[2..4]), Strs.ParseHexPair(c[4..6])))
  }

  /** A colour as six lower-case hex digits, the form the hosts send. */
  function EncodeColor(r: uint8, g: uint8, b: uint8): (c: string)
    ensures |c| == 6
  {
    Strs.HexPair(r) + Strs.HexPair(g) + Strs.HexPair(b)
  }

  /** Decoding inverts encoding for every colour. */
  lemma DecodeEncodeColor(r: uint8, g: uint8, b: uint8)
    ensures DecodeColor(EncodeColor(r, g, b)) == Some((r, g, b))
  {
    var c := EncodeColor(r, g, b);
    assert c[0..2] == Strs.HexPair(r);
    assert c[2..4] == Strs.HexPair(g);
    assert c[4..6] == Strs.HexPair(b);
    Strs.HexPairRoundTrip(r);
    Strs.HexPairRoundTrip(g);
    Strs.HexPairRoundTrip(b);
  }

  /** `ff00aa` is (255, 0, 170); upper-case digits read the same. */
  lemma DecodeColorExample()
    ensures DecodeColor("ff00aa") == Some((255, 0, 170))
    ensures DecodeColor("FF00AA") == Some((255, 0, 170))
  {
    assert "ff00aa"[0..2] == "ff" && "ff00aa"[2..4] == "00" && "ff00aa"[4..6] == "aa";
    assert "FF00AA"[0..2] == "FF" && "FF00AA"[2..4] == "00" && "FF00AA"[4..6] == "AA";
    assert Strs.ParseHexPair("ff") == 255 && Strs.ParseHexPair("FF") == 255;
    assert Strs.ParseHexPair("00") == 0;
    assert Strs.ParseHexPair("aa") == 170 && Strs.ParseHexPair("AA") == 170;
  }

  /** A pair that is not two hex digits decodes as 0 instead of failing, and
      text shorter than six characters has no colour at all. */
  lemma DecodeColorMalformed()
    ensures DecodeColor("zz80ff") == Some((0, 128, 255))
    ensures DecodeColor("fff") == None
  {
    assert "zz80ff"[0..2] == "zz" && "zz80ff"[2..4] == "80" && "zz80ff"[4..6] == "ff";
    assert Strs.ParseHexPair("zz") == 0;
    assert Strs.ParseHexPair("80") == 128;
    assert Strs.ParseHexPair("ff") == 255;
  }

  /** A label named `name` whose colour is the hex text `hex`, or the panic Go
      raises when the text is too short to slice. */
  function ColoredLabel(name: string, hex: string): (r: Result<IssueLabel, Error>)
    ensures r.Ok? <==> |hex| >= 6
    ensures r.Ok? ==>
      r.value.name == name && DecodeColor(hex) == Some((r.value.colorR, r.value.colorG, r.value.colorB))
    ensures r.Err? ==> r.error == Panic(SliceOutOfRange)
  {
    match DecodeColor(hex)
    case Some(rgb) => Ok(IssueLabel(name, rgb.0, rgb.1, rgb.2))
    case None => Err(Panic(SliceOutOfRange))
  }
}
