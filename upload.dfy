/**
 * The two upload routes: a batch is admitted by the middleware, each
 * part is stored under its generated name, and the handler shapes the
 * JSON answer. The clock (one reading per stored part) and the outcome of
 * the disk writes are parameters.
 */
module Upload {
  import opened Wrappers
  import Decimal
  import opened Naming
  import opened Paths
  import opened Limits

  /** The port the service listens on; it is also written into download URLs. */
  const Port: nat := 3000

  /** The fields of a stored part that the handlers read. */
  datatype StoredFile = StoredFile(originalName: string, size: nat, path: string)

  /** A stored name is one path segment when the original holds no backslash. */
  lemma StoredNameIsOneSegment(ts: nat, original: string)
    requires '\\' !in original
    ensures NoSeparator(StoredName(ts, original))
  {
  }

  /**
   * Store one part at clock reading `ts`: the `destination` callback picks
   * the bucket directory, the `filename` callback the name within it.
   */
  function Store(part: Part, ts: nat): (f: StoredFile)
    ensures f.originalName == part.originalName && f.size == part.size
    ensures var dir := Join(UploadRoot, SubDirectory(part.fieldName));
      |f.path| > |dir| && f.path[..|dir|] == dir && f.path[|dir|] == '\\'
      && f.path[|dir| + 1..] == StoredName(ts, part.originalName)
    ensures '\\' !in part.originalName ==> Basename(f.path) == StoredName(ts, part.originalName)
  {
    var dir, name := Join(UploadRoot, SubDirectory(part.fieldName)), StoredName(ts, part.originalName);
    var f := StoredFile(part.originalName, part.size, Join(dir, name));
    if '\\' !in part.originalName then
      StoredNameIsOneSegment(ts, part.originalName);
      BasenameOfJoin(dir, name);
      f
    else
      f
  }

  /** Store every part of a batch, in order, part `i` at clock reading `stamps[i]`. */
  function StoreAll(parts: seq<Part>, stamps: seq<nat>): (fs: seq<StoredFile>)
    requires |stamps| == |parts|
    ensures |fs| == |parts|
    ensures forall i :: 0 <= i < |parts| ==> fs[i] == Store(parts[i], stamps[i])
  {
    if parts == [] then []
    else [Store(parts[0], stamps[0])] + StoreAll(parts[1..], stamps[1..])
  }

  /** The middleware's outcome: an error message, or the stored parts in order. */
  datatype Outcome = Failed(message: string) | Stored(files: seq<StoredFile>)

  /** The message of the middleware's error for each refused limit. */
  function ErrorMessage(v: Violation): (m: string)
    ensures |m| > 0
  {
    match v
    case TooManyFiles => "Too many files"
    case UnexpectedField(_) => "Unexpected field"
    case FileTooLarge(_) => "File too large"
  }

  /**
   * Run the middleware on a batch: refuse it at its first offending part,
   * fail with the message of a disk write error, or store every part.
   */
  function Receive(route: Category, parts: seq<Part>, stamps: seq<nat>, writeError: Option<string>): (o: Outcome)
    requires |stamps| == |parts|
    ensures o.Stored? <==> Admissible(route, parts) && writeError.None?
    ensures o.Stored? ==> o.files == StoreAll(parts, stamps)
    ensures Admissible(route, parts) && writeError.Some? ==> o == Failed(writeError.value)
    ensures !Admissible(route, parts) ==> Admit(route, parts).Some? && o.message == ErrorMessage(Admit(route, parts).value.why)
  {
    AdmitIffAdmissible(route, parts);
    match Admit(route, parts)
    case Some(rejection) => Failed(ErrorMessage(rejection.why))
    case None =>
      match writeError
      case Some(m) => Failed(m)
      case None => Stored(StoreAll(parts, stamps))
  }

  /** One entry of the answer's list. */
  datatype Entry = Entry(name: string, size: nat, downloadUrl: string)

  /** The list of the answer, under the key `files` or `videos`. */
  datatype FileList = FileList(key: string, entries: seq<Entry>)

  /** HTTP status and JSON body of the answer. */
  datatype Response = Response(status: nat, success: bool, msg: string, list: Option<FileList>)

  /** Where the static server exposes bucket `route`. */
  function UrlPrefix(route: Category): (r: string)
    ensures r == "http://localhost:3000/uploads/" + DirName(route) + "/"
  {
    "http://localhost:" + Decimal.Decimal(Port) + "/uploads/" + DirName(route) + "/"
  }

  /** The list entry of one stored file. */
  function Summary(route: Category, f: StoredFile): (e: Entry)
    ensures e.name == f.originalName && e.size == f.size
    ensures |e.downloadUrl| >= |UrlPrefix(route)| && e.downloadUrl[..|UrlPrefix(route)|] == UrlPrefix(route)
    ensures NoSeparator(e.downloadUrl[|UrlPrefix(route)|..])
  {
    Entry(f.originalName, f.size, UrlPrefix(route) + Basename(f.path))
  }

  /** The handler's `map` over the stored files: one entry per file, in order. */
  function Summaries(route: Category, files: seq<StoredFile>): (es: seq<Entry>)
    ensures |es| == |files|
    ensures forall i :: 0 <= i < |files| ==> es[i] == Summary(route, files[i])
  {
    seq(|files|, i requires 0 <= i < |files| => Summary(route, files[i]))
  }

  const SuccessLead: string := "上传成功 "

  /** What is counted in the success message: files or videos. */
  function Noun(route: Category): (r: string) {
    match route
    case Files => " 个文件"
    case Videos => " 个视频"
  }

  /** The success message, with the number of listed entries embedded. */
  function SuccessMessage(route: Category, n: nat): (r: string)
    ensures |r| > |SuccessLead| + |Noun(route)|
    ensures r[..|SuccessLead|] == SuccessLead && r[|r| - |Noun(route)|..] == Noun(route)
  {
    SuccessLead + Decimal.Decimal(n) + Noun(route)
  }

  /** The count embedded in a success message, if `msg` is one. */
  function MessageCount(route: Category, msg: string): (r: Option<nat>) {
    var lead, noun := SuccessLead, Noun(route);
    if |msg| > |lead| + |noun| && msg[..|lead|] == lead && msg[|msg| - |noun|..] == noun
       && Decimal.AllDigits(msg[|lead|..|msg| - |noun|])
    then Some(Decimal.Parse(msg[|lead|..|msg| - |noun|]))
    else None
  }

  /** The count can be read back from the success message. */
  lemma MessageCountRoundTrip(route: Category, n: nat)
    ensures MessageCount(route, SuccessMessage(route, n)) == Some(n)
  {
    var msg, d := SuccessMessage(route, n), Decimal.Decimal(n);
    var lead, noun := SuccessLead, Noun(route);
    assert msg[..|lead|] == lead;
    assert msg[|msg| - |noun|..] == noun;
    assert msg[|lead|..|msg| - |noun|] == d;
    Decimal.ParseDecimal(n);
  }

  /**
   * The handler's answer: 400 with the error message and no list on an
   * error, otherwise success with one entry per stored file.
   */
  function Respond(route: Category, o: Outcome): (r: Response)
    ensures r.success <==> o.Stored?
    ensures r.status == (if o.Stored? then 200 else 400)
    ensures o.Failed? ==> r.msg == o.message && r.list.None?
    ensures o.Stored? ==> r.list.Some? && r.list.value.key == DirName(route)
    ensures o.Stored? ==> |r.list.value.entries| == |o.files|
    ensures o.Stored? ==> MessageCount(route, r.msg) == Some(|r.list.value.entries|)
    ensures o.Stored? ==> forall i :: 0 <= i < |o.files| ==>
      && r.list.value.entries[i].name == o.files[i].originalName
      && r.list.value.entries[i].size == o.files[i].size
      && r.list.value.entries[i].downloadUrl == UrlPrefix(route) + Basename(o.files[i].path)
  {
    match o
    case Failed(m) => Response(400, false, m, None)
    case Stored(files) =>
      var es := Summaries(route, files);
      MessageCountRoundTrip(route, |es|);
      Response(200, true, SuccessMessage(route, |es|), Some(FileList(DirName(route), es)))
  }

  /** A request to the upload route of bucket `route`, from body to answer. */
  function Handle(route: Category, parts: seq<Part>, stamps: seq<nat>, writeError: Option<string>): (r: Response)
    requires |stamps| == |parts|
    ensures r.success <==> Admissible(route, parts) && writeError.None?
    ensures r.status == (if r.success then 200 else 400)
    ensures !r.success ==> r.list.None?
    ensures r.success ==> r.list.Some? && |r.list.value.entries| == |parts|
  {
    Respond(route, Receive(route, parts, stamps, writeError))
  }

  /** A batch outside the limits is answered 400 with the middleware's message. */
  lemma HandleRefuses(route: Category, parts: seq<Part>, stamps: seq<nat>, writeError: Option<string>)
    requires |stamps| == |parts|
    requires !Admissible(route, parts)
    ensures var r := Handle(route, parts, stamps, writeError);
      && r.status == 400 && !r.success && r.list.None?
      && Admit(route, parts).Some?
      && r.msg == ErrorMessage(Admit(route, parts).value.why)
  {
  }

  /**
   * An admitted batch whose disk write fails is answered 400 with the
   * write error's message.
   */
  lemma HandleWriteFails(route: Category, parts: seq<Part>, stamps: seq<nat>, m: string)
    requires |stamps| == |parts|
    requires Admissible(route, parts)
    ensures var r := Handle(route, parts, stamps, Some(m));
      r.status == 400 && !r.success && r.list.None? && r.msg == m
  {
  }

  /**
   * An admitted batch that is written to disk is answered 200 with one
   * entry per part, in order: the original name, the size, and the URL of
   * the route's bucket followed by the stored name.
   */
  lemma HandleAccepts(route: Category, parts: seq<Part>, stamps: seq<nat>, i: nat)
    requires |stamps| == |parts|
    requires Admissible(route, parts)
    requires i < |parts| && '\\' !in parts[i].originalName
    ensures var r := Handle(route, parts, stamps, None);
      && r.status == 200 && r.success && r.list.Some?
      && r.list.value.key == DirName(route)
      && |r.list.value.entries| == |parts|
      && MessageCount(route, r.msg) == Some(|parts|)
      && r.list.value.entries[i] == Entry(parts[i].originalName, parts[i].size,
                                          UrlPrefix(route) + StoredName(stamps[i], parts[i].originalName))
  {
  }

  /**
   * An admitted part is written into the directory of the route's bucket,
   * the same bucket its download URL names.
   */
  lemma StoredInRouteBucket(route: Category, parts: seq<Part>, stamps: seq<nat>, i: nat)
    requires |stamps| == |parts|
    requires Admissible(route, parts)
    requires i < |parts|
    ensures var dir := Join(UploadRoot, DirName(route));
      var p := StoreAll(parts, stamps)[i].path;
      && |p| > |dir| && p[..|dir|] == dir && p[|dir|] == '\\'
      && p[|dir| + 1..] == StoredName(stamps[i], parts[i].originalName)
  {
  }

  /**
   * Two parts of one admitted batch stored at different milliseconds get
   * different download URLs, whatever their original names.
   */
  lemma DistinctDownloadUrls(route: Category, parts: seq<Part>, stamps: seq<nat>, i: nat, j: nat)
    requires |stamps| == |parts|
    requires Admissible(route, parts)
    requires i < |parts| && j < |parts|
    requires '\\' !in parts[i].originalName && '\\' !in parts[j].originalName
    requires stamps[i] != stamps[j]
    ensures var r := Handle(route, parts, stamps, None);
      r.list.Some? && |r.list.value.entries| == |parts|
      && r.list.value.entries[i].downloadUrl != r.list.value.entries[j].downloadUrl
  {
    HandleAccepts(route, parts, stamps, i);
    HandleAccepts(route, parts, stamps, j);
    var a, b := StoredName(stamps[i], parts[i].originalName), StoredName(stamps[j], parts[j].originalName);
    DistinctInstantsDistinctNames(stamps[i], parts[i].originalName, stamps[j], parts[j].originalName);
    var u := UrlPrefix(route);
    assert (u + a)[|u|..] == a && (u + b)[|u|..] == b;
  }

}
