/**
 * The admission limits configured on the upload middleware of the two
 * routes: how many parts a batch may hold, how large each part may be, and
 * which multipart field the route accepts. The middleware reads the parts
 * in stream order and stops at the first part that breaks a limit; a batch
 * is modelled as the sequence of its parts.
 */
module Limits {
  import opened Wrappers
  import opened Naming

  const MiB: nat := 1024 * 1024

  /** One part of a multipart body: its field name, original name and byte size. */
  datatype Part = Part(fieldName: string, originalName: string, size: nat)

  datatype Limits = Limits(maxFiles: nat, maxFileSize: nat)

  /** The limits of the route that stores into bucket `route`. */
  function LimitsFor(route: Category): (l: Limits)
    ensures route == Files ==> l.maxFiles == 150 && l.maxFileSize == 50 * 1024 * 1024
    ensures route == Videos ==> l.maxFiles == 25 && l.maxFileSize == 100 * 1024 * 1024
  {
    match route
    case Files => Limits(150, 50 * MiB)
    case Videos => Limits(25, 100 * MiB)
  }

  /** Why a batch was refused. */
  datatype Violation = TooManyFiles | UnexpectedField(field: string) | FileTooLarge(field: string)

  /** The refusal: the position of the first offending part and the reason. */
  datatype Rejection = Rejection(at: nat, why: Violation)

  /** A part the route accepts at position `i` of its batch. */
  predicate Fits(l: Limits, field: string, parts: seq<Part>, i: nat)
    requires i < |parts|
  {
    i < l.maxFiles && parts[i].fieldName == field && parts[i].size <= l.maxFileSize
  }

  /** The part at position `i` breaks the limit `why` (checked in this order). */
  predicate Breaks(l: Limits, field: string, parts: seq<Part>, i: nat, why: Violation)
    requires i < |parts|
  {
    if i >= l.maxFiles then why == TooManyFiles
    else if parts[i].fieldName != field then why == UnexpectedField(parts[i].fieldName)
    else parts[i].size > l.maxFileSize && why == FileTooLarge(field)
  }

  /** The batch as a whole is within the route's limits. */
  predicate Admissible(route: Category, parts: seq<Part>) {
    var l := LimitsFor(route);
    |parts| <= l.maxFiles
    && forall i :: 0 <= i < |parts| ==> parts[i].fieldName == DirName(route) && parts[i].size <= l.maxFileSize
  }

  /** Scan the parts from position `i` on and report the first that breaks a limit. */
  function Scan(l: Limits, field: string, parts: seq<Part>, i: nat): (r: Option<Rejection>)
    requires i <= |parts|
    ensures r.None? <==> forall j :: i <= j < |parts| ==> Fits(l, field, parts, j)
    ensures r.Some? ==>
      && i <= r.value.at < |parts|
      && (forall j :: i <= j < r.value.at ==> Fits(l, field, parts, j))
      && Breaks(l, field, parts, r.value.at, r.value.why)
    decreases |parts| - i
  {
    if i == |parts| then None
    else if i >= l.maxFiles then
      assert !Fits(l, field, parts, i);
      Some(Rejection(i, TooManyFiles))
    else if parts[i].fieldName != field then
      assert !Fits(l, field, parts, i);
      Some(Rejection(i, UnexpectedField(parts[i].fieldName)))
    else if parts[i].size > l.maxFileSize then
      assert !Fits(l, field, parts, i);
      Some(Rejection(i, FileTooLarge(field)))
    else Scan(l, field, parts, i + 1)
  }

  /** The middleware's verdict on a batch sent to the route of bucket `route`. */
  function Admit(route: Category, parts: seq<Part>): (r: Option<Rejection>)
    ensures r.Some? ==>
      && r.value.at < |parts|
      && (forall j :: 0 <= j < r.value.at ==> Fits(LimitsFor(route), DirName(route), parts, j))
      && Breaks(LimitsFor(route), DirName(route), parts, r.value.at, r.value.why)
  {
    Scan(LimitsFor(route), DirName(route), parts, 0)
  }

  /** A batch is let through exactly when it is within the limits. */
  lemma AdmitIffAdmissible(route: Category, parts: seq<Part>)
    ensures Admit(route, parts).None? <==> Admissible(route, parts)
  {
    var l := LimitsFor(route);
    if Admit(route, parts).None? {
      if |parts| > 0 {
        assert Fits(l, DirName(route), parts, |parts| - 1);
      }
      forall j | 0 <= j < |parts| ensures parts[j].fieldName == DirName(route) && parts[j].size <= l.maxFileSize {
        assert Fits(l, DirName(route), parts, j);
      }
    }
    if Admissible(route, parts) {
      forall j | 0 <= j < |parts| ensures Fits(l, DirName(route), parts, j) {
        assert j < |parts| <= l.maxFiles;
        assert parts[j].fieldName == DirName(route) && parts[j].size <= l.maxFileSize;
      }
    }
  }

  /** Every admitted part was sent under the route's own field name. */
  lemma AdmittedFieldIsRoute(route: Category, parts: seq<Part>, i: nat)
    requires Admit(route, parts).None?
    requires i < |parts|
    ensures parts[i].fieldName == DirName(route)
    ensures CategoryOf(parts[i].fieldName) == route
  {
    AdmitIffAdmissible(route, parts);
    CategoryOfDirName(route);
  }

  /**
   * A batch whose first parts are all acceptable but which holds more parts
   * than the limit is refused as too many, at the first part over the count.
   */
  lemma OverCountRefused(route: Category, parts: seq<Part>)
    requires |parts| > LimitsFor(route).maxFiles
    requires forall j :: 0 <= j < LimitsFor(route).maxFiles ==>
      parts[j].fieldName == DirName(route) && parts[j].size <= LimitsFor(route).maxFileSize
    ensures Admit(route, parts) == Some(Rejection(LimitsFor(route).maxFiles, TooManyFiles))
  {
    var l, field := LimitsFor(route), DirName(route);
    var r := Admit(route, parts);
    assert !Fits(l, field, parts, l.maxFiles);
  }

  /** `n` copies of a part of `size` bytes under field `field`. */
  function Batch(n: nat, field: string, size: nat): (b: seq<Part>)
    ensures |b| == n
    ensures forall i :: 0 <= i < n ==> b[i] == Part(field, "a.txt", size)
  {
    seq(n, _ => Part(field, "a.txt", size))
  }

  /** A full batch of 150 files of exactly 50 MiB is accepted. */
  lemma FilesAtLimitAccepted()
    ensures Admit(Files, Batch(150, "files", 50 * MiB)) == None
  {
  }

  /** The 151st file is refused as one too many. */
  lemma FilesOverCountRefused()
    ensures Admit(Files, Batch(151, "files", 1)) == Some(Rejection(150, TooManyFiles))
  {
    OverCountRefused(Files, Batch(151, "files", 1));
  }

  /** A single file one byte over 50 MiB is refused as too large. */
  lemma FilesOverSizeRefused()
    ensures Admit(Files, Batch(1, "files", 50 * MiB + 1)) == Some(Rejection(0, FileTooLarge("files")))
  {
  }

  /** A full batch of 25 videos of exactly 100 MiB is accepted. */
  lemma VideosAtLimitAccepted()
    ensures Admit(Videos, Batch(25, "videos", 100 * MiB)) == None
  {
  }

  /** The 26th video is refused as one too many. */
  lemma VideosOverCountRefused()
    ensures Admit(Videos, Batch(26, "videos", 1)) == Some(Rejection(25, TooManyFiles))
  {
    OverCountRefused(Videos, Batch(26, "videos", 1));
  }

  /** A single video one byte over 100 MiB is refused as too large. */
  lemma VideosOverSizeRefused()
    ensures Admit(Videos, Batch(1, "videos", 100 * MiB + 1)) == Some(Rejection(0, FileTooLarge("videos")))
  {
  }

}
