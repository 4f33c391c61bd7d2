/** Artifact and MCP-resource locations (`toolbox/utils/path_resolver.py`):
    checking an artifact locator and building its versioned path, normalising
    an extension and looking up its MIME type, placing a resource file under the
    resource root, and deciding which saved resources are registered. The
    filesystem (`resolve`, `mkdir`, writes) is a parameter or left out. */
module PathResolver {
  import opened Wrappers
  import opened Py
  import opened Json

  // ---------------------------------------------------------------------------
  // resolve_artifact_path

  const REQUIRED_KEYS: seq<string> := ["user_id", "session_id", "artifact_name", "version"]

  /** A locator entry that counts as missing: absent, `None`, or a string of
      whitespace only. Any other value, `0` included, is present. */
  predicate Blank(v: Json) {
    v == Null || (v.Str? && Strip(v.s) == "")
  }

  /** The first of `keys` whose locator entry is blank, if any. */
  function FirstBlank(locator: Dict, keys: seq<string>): (r: Option<string>)
    ensures r.None? <==> forall i :: 0 <= i < |keys| ==> !Blank(Get(locator, keys[i], Null))
    ensures r.Some? ==> exists i :: 0 <= i < |keys| && keys[i] == r.value && Blank(Get(locator, keys[i], Null)) &&
                                   (forall j :: 0 <= j < i ==> !Blank(Get(locator, keys[j], Null)))
  {
    if keys == [] then None
    else if Blank(Get(locator, keys[0], Null)) then Some(keys[0])
    else
      var r := FirstBlank(locator, keys[1..]);
      if r.Some? then
        ghost var i :| 0 <= i < |keys[1..]| && keys[1..][i] == r.value && Blank(Get(locator, keys[1..][i], Null)) &&
                       (forall j :: 0 <= j < i ==> !Blank(Get(locator, keys[1..][j], Null)));
        assert keys[i + 1] == r.value;
        r
      else r
  }

  /** Python's `str(v)`: integers in decimal, strings as they are, booleans by
      name; `show` stands for the rendering of any other value. */
  function PyStr(v: Json, show: Json -> string): string {
    match v
    case Num(n) => IntToString(n)
    case Str(s) => s
    case Bool(b) => if b then "True" else "False"
    case _ => show(v)
  }

  /** A POSIX path as `pathlib` holds it: whether it starts at the root, and
      its segments. */
  datatype PosixPath = PosixPath(rooted: bool, parts: seq<string>)

  /** The segments `pathlib` keeps: empty and "." segments are dropped. */
  function KeptSegments(segs: seq<string>): (r: seq<string>)
    ensures forall i :: 0 <= i < |r| ==> r[i] != "" && r[i] != "."
    decreases |segs|
  {
    if segs == [] then []
    else (if segs[0] == "" || segs[0] == "." then [] else [segs[0]]) + KeptSegments(segs[1..])
  }

  /** `PurePosixPath(s)`. */
  function ParsePath(s: string): PosixPath {
    PosixPath(|s| > 0 && s[0] == '/', KeptSegments(Split(s, '/')))
  }

  /** `p / part`: a part that starts with a slash starts the path afresh. */
  function JoinPart(p: PosixPath, part: string): PosixPath {
    var q := ParsePath(part);
    if q.rooted then q else PosixPath(p.rooted, p.parts + q.parts)
  }

  /** `p / parts[0] / parts[1] / ...`. */
  function JoinParts(p: PosixPath, parts: seq<string>): PosixPath
    decreases |parts|
  {
    if parts == [] then p else JoinParts(JoinPart(p, parts[0]), parts[1..])
  }

  /** `as_posix()`: a rooted path after one slash, an empty relative path as ".". */
  function AsPosix(p: PosixPath): string {
    if p.rooted then "/" + Join("/", p.parts)
    else if p.parts == [] then "."
    else Join("/", p.parts)
  }

  /** The parts after the root that make up an artifact's path. */
  function ArtifactParts(user: string, session: string, name: string, version: string): seq<string> {
    [user, "sessions", session, "artifacts", name, "versions", version, name]
  }

  /** `(Path(root) / user / "sessions" / session / "artifacts" / name /
      "versions" / version / name).as_posix()`. */
  function ArtifactPath(root: string, user: string, session: string, name: string, version: string): string {
    AsPosix(JoinParts(ParsePath(root), ArtifactParts(user, session, name, version)))
  }

  /** `get_artifact_path(user_id, session_id, artifact_name, versions)`.
      Source defect: the path is built from `version`, a name that is not
      defined (`path_resolver.py:20,31`); the parameter `versions` is modelled. */
  function GetArtifactPath(root: string, user: string, session: string, name: string, versions: int): string {
    ArtifactPath(root, user, session, name, IntToString(versions))
  }

  /** `resolve_artifact_path(artifact_locator)`, with `ADK_ARTIFACT_ROOT` as
      `root`. The first blank required entry raises a ValueError naming it; a
      user, session or artifact name that is not a string cannot be joined to a
      path (a TypeError); the version is rendered with `str`. */
  function ResolveArtifactPath(root: string, locator: Dict, show: Json -> string): (r: Result<string, Exc>)
    ensures FirstBlank(locator, REQUIRED_KEYS).Some? ==> r.Failure? && r.error.ValueError?
    ensures var user, session, name := Get(locator, "user_id", Null), Get(locator, "session_id", Null), Get(locator, "artifact_name", Null);
      && (r.Success? <==> FirstBlank(locator, REQUIRED_KEYS).None? && user.Str? && session.Str? && name.Str?)
      && (r.Success? ==> r.value == ArtifactPath(root, user.s, session.s, name.s, PyStr(Get(locator, "version", Null), show)))
  {
    var missing := FirstBlank(locator, REQUIRED_KEYS);
    if missing.Some? then
      Failure(ValueError(" artifact_locator에 필수 항목 '" + missing.value + "'이(가) 누락되었거나 비어있습니다."))
    else
      AllPresent(locator);
      var user := locator["user_id"];
      var session := locator["session_id"];
      var name := locator["artifact_name"];
      if !user.Str? || !session.Str? || !name.Str? then
        Failure(TypeError("unsupported operand type(s) for /"))
      else
        Success(ArtifactPath(root, user.s, session.s, name.s, PyStr(locator["version"], show)))
  }

  /** Every required entry of a locator without blanks is present. */
  lemma AllPresent(locator: Dict)
    requires FirstBlank(locator, REQUIRED_KEYS).None?
    ensures "user_id" in locator && "session_id" in locator && "artifact_name" in locator && "version" in locator
  {
    assert !Blank(Get(locator, REQUIRED_KEYS[0], Null));
    assert !Blank(Get(locator, REQUIRED_KEYS[1], Null));
    assert !Blank(Get(locator, REQUIRED_KEYS[2], Null));
    assert !Blank(Get(locator, REQUIRED_KEYS[3], Null));
  }

  /** A locator whose entries are non-blank strings and an integer version
      gives the same path as `get_artifact_path` does. */
  lemma ResolveAgreesWithGet(root: string, locator: Dict, user: string, session: string, name: string, version: int, show: Json -> string)
    requires Get(locator, "user_id", Null) == Str(user) && Get(locator, "session_id", Null) == Str(session)
    requires Get(locator, "artifact_name", Null) == Str(name) && Get(locator, "version", Null) == Num(version)
    requires Strip(user) != "" && Strip(session) != "" && Strip(name) != ""
    ensures ResolveArtifactPath(root, locator, show) == Success(GetArtifactPath(root, user, session, name, version))
  {
    NoBlankEntry(locator);
  }

  /** A locator whose required entries are all non-blank has no first blank one. */
  lemma NoBlankEntry(locator: Dict)
    requires !Blank(Get(locator, "user_id", Null)) && !Blank(Get(locator, "session_id", Null))
    requires !Blank(Get(locator, "artifact_name", Null)) && !Blank(Get(locator, "version", Null))
    ensures FirstBlank(locator, REQUIRED_KEYS).None?
  {
    forall i | 0 <= i < |REQUIRED_KEYS|
      ensures !Blank(Get(locator, REQUIRED_KEYS[i], Null))
    {
      if i == 0 {
        assert REQUIRED_KEYS[i] == "user_id";
      } else if i == 1 {
        assert REQUIRED_KEYS[i] == "session_id";
      } else if i == 2 {
        assert REQUIRED_KEYS[i] == "artifact_name";
      }
    }
  }

  /** A non-empty part other than "." with no slash is one segment. */
  predicate PlainPart(s: string) {
    s != "" && s != "." && '/' !in s
  }

  lemma ParsePlainPart(s: string)
    requires PlainPart(s)
    ensures ParsePath(s) == PosixPath(false, [s])
  {
    SplitJoin([s], '/');
    assert Split(s, '/') == [s];
    assert s[0] in s;
    assert KeptSegments([s]) == [s] + KeptSegments([]);
  }

  /** Joining plain parts appends them as segments. */
  lemma {:induction false} JoinPlainParts(p: PosixPath, parts: seq<string>)
    requires forall i :: 0 <= i < |parts| ==> PlainPart(parts[i])
    ensures JoinParts(p, parts) == PosixPath(p.rooted, p.parts + parts)
    decreases |parts|
  {
    if parts != [] {
      ParsePlainPart(parts[0]);
      JoinPlainParts(JoinPart(p, parts[0]), parts[1..]);
      assert p.parts + [parts[0]] + parts[1..] == p.parts + parts;
    }
  }

  /** With plain parts, the path holds the root's kept segments followed by the
      user, "sessions", the session, "artifacts", the name, "versions", the
      version and the name once more, rooted exactly when the root is. */
  lemma ArtifactPathSegments(root: string, user: string, session: string, name: string, version: string)
    requires PlainPart(user) && PlainPart(session) && PlainPart(name) && PlainPart(version)
    ensures JoinParts(ParsePath(root), ArtifactParts(user, session, name, version))
      == PosixPath(|root| > 0 && root[0] == '/', KeptSegments(Split(root, '/')) + ArtifactParts(user, session, name, version))
  {
    ArtifactPartsPlain(user, session, name, version);
    JoinPlainParts(ParsePath(root), ArtifactParts(user, session, name, version));
  }

  lemma ArtifactPartsPlain(user: string, session: string, name: string, version: string)
    requires PlainPart(user) && PlainPart(session) && PlainPart(name) && PlainPart(version)
    ensures forall i :: 0 <= i < |ArtifactParts(user, session, name, version)| ==> PlainPart(ArtifactParts(user, session, name, version)[i])
  {
    var tail := ArtifactParts(user, session, name, version);
    assert PlainPart("sessions") && PlainPart("artifacts") && PlainPart("versions");
    forall i | 0 <= i < |tail|
      ensures PlainPart(tail[i])
    {
    }
  }

  lemma {:induction false} KeptSegmentsAppend(a: seq<string>, b: seq<string>)
    ensures KeptSegments(a + b) == KeptSegments(a) + KeptSegments(b)
    decreases |a|
  {
    if a == [] {
      assert a + b == b;
    } else {
      assert (a + b)[0] == a[0];
      assert (a + b)[1..] == a[1..] + b;
      KeptSegmentsAppend(a[1..], b);
    }
  }

  /** A trailing slash on a non-empty root makes no difference to the path
      (an empty root is the current directory, and "/" the filesystem root). */
  lemma RootTrailingSlash(root: string, user: string, session: string, name: string, version: string)
    requires root != ""
    ensures ArtifactPath(root + "/", user, session, name, version) == ArtifactPath(root, user, session, name, version)
  {
    SplitConcat(root, "", '/');
    assert root + "/" == root + ['/'] + "";
    assert Split("", '/') == [""];
    KeptSegmentsAppend(Split(root, '/'), [""]);
    assert KeptSegments([""]) == [];
    assert ParsePath(root + "/").parts == ParsePath(root).parts;
    assert (root + "/")[0] == root[0];
  }

  /** A user id that starts with a slash discards the root: the path is the
      same whatever the root. */
  lemma RootedUserDiscardsRoot(root1: string, root2: string, user: string, session: string, name: string, version: string)
    requires |user| > 0 && user[0] == '/'
    ensures ArtifactPath(root1, user, session, name, version) == ArtifactPath(root2, user, session, name, version)
  {
    var tail := ArtifactParts(user, session, name, version);
    assert JoinParts(ParsePath(root1), tail) == JoinParts(JoinPart(ParsePath(root1), user), tail[1..]);
    assert JoinParts(ParsePath(root2), tail) == JoinParts(JoinPart(ParsePath(root2), user), tail[1..]);
  }

  // ---------------------------------------------------------------------------
  // _get_mime_type

  const MIME_BY_EXT: map<string, string> := map[
    "csv" := "text/csv",
    "json" := "application/json",
    "png" := "image/png",
    "html" := "text/html",
    "htm" := "text/html",
    "txt" := "text/plain"]

  const OCTET_STREAM: string := "application/octet-stream"

  /** `(ext or "").lstrip(".").lower()`: no leading dot is left. */
  function NormalizeExt(ext: Option<string>): (e: string)
    ensures e == [] || e[0] != '.'
  {
    Lower(LStripChar(ext.GetOr(""), '.'))
  }

  /** Normalising is idempotent, ignores any run of leading dots, and
      lower-cases. */
  lemma NormalizeExtProperties(s: string, dots: string)
    requires forall i :: 0 <= i < |dots| ==> dots[i] == '.'
    ensures NormalizeExt(Some(NormalizeExt(Some(s)))) == NormalizeExt(Some(s))
    ensures NormalizeExt(Some(dots + s)) == NormalizeExt(Some(s))
    ensures NormalizeExt(Some(Lower(s))) == NormalizeExt(Some(s))
    ensures NormalizeExt(None) == NormalizeExt(Some(""))
  {
    var e := NormalizeExt(Some(s));
    NoLeadingDot(e);
    LowerIdempotent(e);
    LowerIdempotent(LStripChar(s, '.'));
    StripDots(dots, s);
    LowerStripCommute(s);
  }

  lemma NoLeadingDot(x: string)
    requires x == [] || x[0] != '.'
    ensures LStripChar(x, '.') == x
  {
  }

  lemma LowerIdempotent(x: string)
    ensures Lower(Lower(x)) == Lower(x)
  {
    assert forall i :: 0 <= i < |x| ==> LowerChar(LowerChar(x[i])) == LowerChar(x[i]);
  }

  lemma {:induction false} StripDots(dots: string, s: string)
    requires forall i :: 0 <= i < |dots| ==> dots[i] == '.'
    ensures LStripChar(dots + s, '.') == LStripChar(s, '.')
    decreases |dots|
  {
    if dots != [] {
      assert (dots + s)[1..] == dots[1..] + s;
      StripDots(dots[1..], s);
    } else {
      assert dots + s == s;
    }
  }

  lemma {:induction false} LowerStripCommute(s: string)
    ensures LStripChar(Lower(s), '.') == Lower(LStripChar(s, '.'))
    decreases |s|
  {
    if s != [] {
      assert Lower(s)[1..] == Lower(s[1..]);
      LowerStripCommute(s[1..]);
    }
  }

  /** `_get_mime_type(ext)`: the table's entry for the normalised extension, or
      the octet-stream type for any other. */
  function MimeType(ext: Option<string>): (m: string)
    ensures NormalizeExt(ext) in MIME_BY_EXT ==> m == MIME_BY_EXT[NormalizeExt(ext)]
    ensures NormalizeExt(ext) !in MIME_BY_EXT ==> m == OCTET_STREAM
  {
    MimeOf(NormalizeExt(ext))
  }

  /** The table lookup for an already normalised extension. */
  function MimeOf(e: string): string {
    if e in MIME_BY_EXT then MIME_BY_EXT[e] else OCTET_STREAM
  }

  /** Leading dots and upper case make no difference to the MIME type, nor does
      normalising first. */
  lemma MimeTypeProperties(s: string, dots: string)
    requires forall i :: 0 <= i < |dots| ==> dots[i] == '.'
    ensures MimeType(Some(dots + s)) == MimeType(Some(s)) == MimeType(Some(Lower(s)))
    ensures MimeType(Some(NormalizeExt(Some(s)))) == MimeType(Some(s))
  {
    NormalizeExtProperties(s, dots);
  }

  /** A missing or empty extension has the default type. */
  lemma EmptyExtIsOctetStream()
    ensures MimeType(None) == OCTET_STREAM && MimeType(Some("")) == OCTET_STREAM
  {
    assert |NormalizeExt(None)| == 0 && |NormalizeExt(Some(""))| == 0;
    assert forall k :: k in MIME_BY_EXT ==> |k| >= 3;
  }

  /** Normalising an optional extension twice is normalising it once, so the
      MIME type of a normalised extension is that of the original. */
  lemma NormalizeOptional(ext: Option<string>)
    ensures NormalizeExt(Some(NormalizeExt(ext))) == NormalizeExt(ext)
    ensures MimeType(Some(NormalizeExt(ext))) == MimeType(ext)
  {
    var e := NormalizeExt(ext);
    NoLeadingDot(e);
    LowerIdempotent(e);
    LowerIdempotent(LStripChar(ext.GetOr(""), '.'));
  }

  // ---------------------------------------------------------------------------
  // get_mcp_resource_path

  /** `root in p.parents or p == root` for resolved absolute paths: `p` is the
      root or lies below it. */
  predicate Within(root: string, p: string) {
    || p == root
    || (root == "/" && |p| > 1 && p[0] == '/')
    || (root != "/" && |root| < |p| && p[..|root|] == root && p[|root|] == '/')
  }

  /** `Path(p).name`: the last segment. */
  function Basename(p: string): (r: string)
    ensures '/' !in r
  {
    var pieces := Split(p, '/');
    pieces[|pieces| - 1]
  }

  /** `root / f"{job_id}.{safe_ext}"`, before it is resolved. */
  function ResourceFile(root: string, jobId: string, safeExt: string): string {
    AsPosix(JoinPart(ParsePath(root), jobId + "." + safeExt))
  }

  /** A job id that starts with a slash discards the root, as pathlib does. */
  lemma RootedJobIdDiscardsRoot(root1: string, root2: string, jobId: string, safeExt: string)
    requires |jobId| > 0 && jobId[0] == '/'
    ensures ResourceFile(root1, jobId, safeExt) == ResourceFile(root2, jobId, safeExt)
    ensures ResourceFile(root1, jobId, safeExt) == AsPosix(ParsePath(jobId + "." + safeExt))
  {
    assert (jobId + "." + safeExt)[0] == '/';
  }

  /** Under a resolved root, a plain job id names a file directly inside it. */
  lemma PlainJobIdStaysInside(root: string, jobId: string, safeExt: string)
    requires root == AsPosix(ParsePath(root)) && ParsePath(root).rooted
    requires PlainPart(jobId + "." + safeExt)
    ensures ResourceFile(root, jobId, safeExt) == (if root == "/" then "" else root) + "/" + jobId + "." + safeExt
    ensures Within(root, ResourceFile(root, jobId, safeExt))
  {
    var name := jobId + "." + safeExt;
    PlainChildPath(ParsePath(root), name);
    assert root[0] == '/';
    ChildWithin(root, name);
  }

  /** A plain part joined to a rooted path is written after one slash. */
  lemma PlainChildPath(p: PosixPath, name: string)
    requires p.rooted && PlainPart(name)
    requires forall i :: 0 <= i < |p.parts| ==> p.parts[i] != ""
    ensures AsPosix(JoinPart(p, name)) == (if AsPosix(p) == "/" then "" else AsPosix(p)) + "/" + name
  {
    ParsePlainPart(name);
    assert JoinPart(p, name) == PosixPath(true, p.parts + [name]);
    JoinAppend("/", p.parts, name);
    if p.parts != [] {
      assert p.parts[0] != "";
      assert |Join("/", p.parts)| >= |p.parts[0]|;
    }
  }

  lemma ChildWithin(root: string, name: string)
    requires root != "" && root[0] == '/' && name != ""
    ensures Within(root, (if root == "/" then "" else root) + "/" + name)
  {
    var p := (if root == "/" then "" else root) + "/" + name;
    if root != "/" {
      assert p[..|root|] == root;
      assert p[|root|] == '/';
    }
  }

  /** The extension "csv" is already normal. */
  lemma CsvIsNormal()
    ensures NormalizeExt(Some("csv")) == "csv"
  {
    var e := "csv";
    assert e[0] == 'c';
    assert LStripChar(e, '.') == e;
    forall i | 0 <= i < |e|
      ensures LowerChar(e[i]) == e[i]
    {
      assert 'a' <= e[i] <= 'z';
    }
    assert Lower(e) == e;
  }

  /** `PurePosixPath("/x.csv")` is rooted with the one segment "x.csv". */
  lemma ParseRootedName()
    ensures ParsePath("/x.csv") == PosixPath(true, ["x.csv"])
  {
    assert "/x.csv" == "" + ['/'] + "x.csv";
    SplitConcat("", "x.csv", '/');
    SplitJoin(["x.csv"], '/');
    assert Split("/x.csv", '/') == ["", "x.csv"];
    assert KeptSegments(["", "x.csv"]) == [] + KeptSegments(["x.csv"]);
    assert KeptSegments(["x.csv"]) == ["x.csv"] + KeptSegments([]);
  }

  /** A job id that starts with a slash is checked as its own absolute path:
      when that path, resolved, is not under the resolved root, the resource is
      rejected. */
  lemma RootedJobIdOutsideRejected(root: string, jobId: string, ext: Option<string>, resolve: string -> string)
    requires |jobId| > 0 && jobId[0] == '/'
    requires !Within(resolve(root), resolve(AsPosix(ParsePath(jobId + "." + NormalizeExt(ext)))))
    ensures GetMcpResourcePath(root, jobId, ext, resolve).Failure?
  {
    RootedJobIdDiscardsRoot(resolve(root), "/", jobId, NormalizeExt(ext));
  }

  /** For example, `"/x"` with the root "/r" names "/x.csv", which is not under
      "/r", for any resolver that leaves those two paths as they are (there are
      no links to follow). */
  lemma AbsoluteJobIdRejected(resolve: string -> string)
    requires resolve("/r") == "/r" && resolve("/x.csv") == "/x.csv"
    ensures GetMcpResourcePath("/r", "/x", Some("csv"), resolve).Failure?
  {
    CsvIsNormal();
    AbsoluteJobIdFile();
    RootedJobIdDiscardsRoot("/r", "/r", "/x", "csv");
    OutsideExample();
    RootedJobIdOutsideRejected("/r", "/x", Some("csv"), resolve);
  }

  lemma OutsideExample()
    ensures !Within("/r", "/x.csv")
  {
    assert "/x.csv"[1] != "/r"[1];
  }

  lemma AbsoluteJobIdFile()
    ensures ResourceFile("/r", "/x", "csv") == "/x.csv"
  {
    assert "/x" + "." + "csv" == "/x.csv";
    RootedJobIdDiscardsRoot("/r", "/", "/x", "csv");
    ParseRootedName();
    assert Join("/", ["x.csv"]) == "x.csv";
  }

  /** Where a resource is stored, its URI and its MIME type. */
  datatype Location = Location(absPath: string, uri: string, mime: string)

  /** `get_mcp_resource_path(job_id, ext)`, with `MCP_RESOURCE_ROOT` as `root`
      and `resolve` standing for `Path.resolve`. The `not MCP_RESOURCE_ROOT` guard
      tests a `Path`, which is always true, so it never raises. An empty
      normalised extension and a file that resolves outside the root are
      rejected.
      Source defect: the URI is bound to `url` and `uri` is returned
      (`path_resolver.py:128,130`); the intended URI is modelled. */
  function GetMcpResourcePath(root: string, jobId: string, ext: Option<string>, resolve: string -> string): (r: Result<Location, Exc>)
    ensures r.Failure? ==> r.error.ValueError?
    ensures r.Success? <==>
      NormalizeExt(ext) != "" && Within(resolve(root), resolve(ResourceFile(resolve(root), jobId, NormalizeExt(ext))))
    ensures r.Success? ==>
      && Within(resolve(root), r.value.absPath)
      && r.value.absPath == resolve(ResourceFile(resolve(root), jobId, NormalizeExt(ext)))
      && r.value.uri == "mcp://resources/" + Basename(r.value.absPath)
      && r.value.mime == MimeType(ext)
  {
    var rootPath := resolve(root);
    var safeExt := NormalizeExt(ext);
    if safeExt == "" then Failure(ValueError("ext 가 이어있습니다."))
    else
      var absPath := resolve(ResourceFile(rootPath, jobId, safeExt));
      if !Within(rootPath, absPath) then Failure(ValueError("잘못된 MCP resource 경로입니다."))
      else
        var uri := "mcp://resources/" + Basename(absPath);
        NormalizeOptional(ext);
        Success(Location(absPath, uri, MimeType(Some(safeExt))))
  }

  // ---------------------------------------------------------------------------
  // save_resource, save_resource_bytes

  /** What is handed to `save_resource`: a data frame or any other value. */
  datatype Resource = DataFrame | Value(v: Json)

  /** The file a save writes. */
  datatype Written = CsvFile | JsonFile | NoFile | BytesFile

  /** What a save returns, `(uri, filename, mime_type)`, with the file it wrote
      and whether it registered the resource with `add_resource`. */
  datatype Saved = Saved(uri: string, fileName: string, mime: string, written: Written, registered: bool)

  /** `save_resource(obj, job_id, ext)`. A `csv` save needs a data frame, writes
      it and returns before registering; a `json` save writes the value (a data
      frame is not JSON-serialisable); every other extension writes nothing.
      All but `csv` are registered. */
  function SaveResource(obj: Resource, jobId: string, ext: Option<string>, root: string, resolve: string -> string): (r: Result<Saved, Exc>)
    ensures r.Success? ==> (r.value.registered <==> NormalizeExt(ext) != "csv")
    ensures r.Success? ==> r.value.mime == MimeType(ext)
    ensures r.Success? ==> (r.value.written == CsvFile <==> NormalizeExt(ext) == "csv")
    ensures r.Success? ==> (r.value.written == JsonFile <==> NormalizeExt(ext) == "json")
    ensures NormalizeExt(ext) == "csv" && obj.Value? ==> r.Failure?
    ensures GetMcpResourcePath(root, jobId, ext, resolve).Success? && obj.DataFrame? && NormalizeExt(ext) != "json" ==> r.Success?
  {
    var safeExt := NormalizeExt(ext);
    NormalizeOptional(ext);
    var loc :- GetMcpResourcePath(root, jobId, Some(safeExt), resolve);
    if safeExt == "csv" then
      if !obj.DataFrame? then Failure(ValueError("csv 저장은 pandas.DataFrame만 지원합니다."))
      else Success(Saved(loc.uri, Basename(loc.absPath), loc.mime, CsvFile, false))
    else if safeExt == "json" then
      if obj.DataFrame? then Failure(TypeError("Object of type DataFrame is not JSON serializable"))
      else Success(Saved(loc.uri, Basename(loc.absPath), loc.mime, JsonFile, true))
    else Success(Saved(loc.uri, Basename(loc.absPath), loc.mime, NoFile, true))
  }

  /** `save_resource_bytes(data, job_id, ext)`: the bytes are written and the
      resource is always registered.
      Source defect: the parent directory is created through an undefined name
      `parent` (`path_resolver.py:146`), which raises before anything is saved;
      `abs_path.parent.mkdir` is modelled. */
  function SaveResourceBytes(jobId: string, ext: Option<string>, root: string, resolve: string -> string): (r: Result<Saved, Exc>)
    ensures r.Success? <==> GetMcpResourcePath(root, jobId, ext, resolve).Success?
    ensures r.Success? ==> r.value.registered && r.value.written == BytesFile && r.value.mime == MimeType(ext)
  {
    var loc :- GetMcpResourcePath(root, jobId, ext, resolve);
    Success(Saved(loc.uri, Basename(loc.absPath), loc.mime, BytesFile, true))
  }
}
