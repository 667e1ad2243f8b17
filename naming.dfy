/**
 * Where an uploaded part is placed and under what name: the `destination`
 * and `filename` callbacks of the disk storage in server.js. The clock is
 * a parameter (`ts`, the value `Date.now()` returned).
 */
module Naming {
  import opened Wrappers
  import Decimal

  /** The storage bucket of a part; also the segment of its download URL. */
  datatype Category = Files | Videos

  /** Name of the bucket's subdirectory (and of the route's multipart field). */
  function DirName(c: Category): (r: string)
    ensures r == "videos" <==> c == Videos
  {
    match c
    case Files => "files"
    case Videos => "videos"
  }

  /** The field name picks the bucket: `videos` alone means videos. */
  function CategoryOf(fieldName: string): (c: Category)
    ensures c == Videos <==> fieldName == "videos"
  {
    if fieldName == "videos" then Videos else Files
  }

  /** The subdirectory the `destination` callback appends to the upload root. */
  function SubDirectory(fieldName: string): (r: string)
    ensures r == "videos" || r == "files"
    ensures r == "videos" <==> fieldName == "videos"
  {
    DirName(CategoryOf(fieldName))
  }

  /** Each bucket is selected by the field name that equals its own directory name. */
  lemma CategoryOfDirName(c: Category)
    ensures CategoryOf(DirName(c)) == c
    ensures SubDirectory(DirName(c)) == DirName(c)
  {
  }

  /** The characters the `filename` callback replaces. */
  const Forbidden: string := "/:*?\"<>|"

  predicate IsForbidden(c: char) {
    c in Forbidden
  }

  predicate NoForbidden(s: string) {
    forall i :: 0 <= i < |s| ==> !IsForbidden(s[i])
  }

  /** Replace every forbidden character by `-`, one for one, keeping all others. */
  function Sanitize(s: string): (r: string)
    ensures |r| == |s|
    ensures forall i :: 0 <= i < |s| ==> r[i] == (if IsForbidden(s[i]) then '-' else s[i])
    ensures NoForbidden(r)
  {
    if s == [] then []
    else [if IsForbidden(s[0]) then '-' else s[0]] + Sanitize(s[1..])
  }

  /** Sanitising a sanitised name changes nothing. */
  lemma SanitizeIdempotent(s: string)
    ensures Sanitize(Sanitize(s)) == Sanitize(s)
  {
  }

  /** A name is left alone exactly when it has no forbidden character. */
  lemma SanitizeFixedPoint(s: string)
    ensures Sanitize(s) == s <==> NoForbidden(s)
  {
  }

  /** Sanitising a concatenation sanitises each piece. */
  lemma SanitizeAppend(a: string, b: string)
    ensures Sanitize(a + b) == Sanitize(a) + Sanitize(b)
  {
  }

  /**
   * The stored name: the decimal timestamp, a dash, then the sanitised
   * original name.
   */
  function StoredName(ts: nat, original: string): (r: string)
    ensures NoForbidden(r)
    ensures |r| == |Decimal.Decimal(ts)| + 1 + |original|
  {
    var d := Decimal.Decimal(ts);
    assert NoForbidden(d) by {
      forall i | 0 <= i < |d| ensures !IsForbidden(d[i]) {
        assert Decimal.IsDigit(d[i]);
      }
    }
    var r := d + "-" + Sanitize(original);
    assert forall i :: 0 <= i < |r| ==> !IsForbidden(r[i]) by {
      forall i | 0 <= i < |r| ensures !IsForbidden(r[i]) {
        if i < |d| { assert r[i] == d[i]; }
        else if i > |d| { assert r[i] == Sanitize(original)[i - |d| - 1]; }
      }
    }
    r
  }

  /** Index of the first occurrence of `c` in `s`, if any. */
  function FirstIndex(s: string, c: char): (r: Option<nat>)
    ensures r.Some? ==> r.value < |s| && s[r.value] == c && c !in s[..r.value]
    ensures r.None? ==> c !in s
  {
    if s == [] then None
    else if s[0] == c then Some(0)
    else match FirstIndex(s[1..], c)
      case None => None
      case Some(k) => Some(k + 1)
  }

  /**
   * Split a stored name at its first dash into the timestamp and the
   * sanitised original; None when the text before the first dash is not a
   * decimal number.
   */
  function SplitStoredName(name: string): (r: Option<(nat, string)>) {
    match FirstIndex(name, '-')
    case None => None
    case Some(k) =>
      if 0 < k && Decimal.AllDigits(name[..k])
      then Some((Decimal.Parse(name[..k]), name[k + 1..]))
      else None
  }

  /** The first dash of a stored name is the one right after the timestamp. */
  lemma FirstDashAfterDigits(d: string, rest: string)
    requires Decimal.AllDigits(d)
    ensures FirstIndex(d + "-" + rest, '-') == Some(|d|)
  {
    var s := d + "-" + rest;
    assert s[..|d|] == d;
    assert '-' !in d by {
      forall i | 0 <= i < |d| ensures d[i] != '-' {
        assert Decimal.IsDigit(d[i]);
      }
    }
    assert s[|d|] == '-';
    var r := FirstIndex(s, '-');
    assert r.Some?;
  }

  /**
   * The timestamp and the sanitised original can be read back from the
   * stored name: the timestamp is the text before the first dash.
   */
  lemma SplitStoredNameRoundTrip(ts: nat, original: string)
    ensures SplitStoredName(StoredName(ts, original)) == Some((ts, Sanitize(original)))
  {
    var d := Decimal.Decimal(ts);
    var name := StoredName(ts, original);
    FirstDashAfterDigits(d, Sanitize(original));
    assert name[..|d|] == d;
    assert name[|d| + 1..] == Sanitize(original);
    Decimal.ParseDecimal(ts);
  }

  /**
   * Two stored names are equal exactly when they were made at the same
   * millisecond from originals that sanitise alike.
   */
  lemma StoredNameInjective(t1: nat, o1: string, t2: nat, o2: string)
    ensures StoredName(t1, o1) == StoredName(t2, o2) <==> t1 == t2 && Sanitize(o1) == Sanitize(o2)
  {
    SplitStoredNameRoundTrip(t1, o1);
    SplitStoredNameRoundTrip(t2, o2);
  }

  /** Names made at different milliseconds never clash. */
  lemma DistinctInstantsDistinctNames(t1: nat, o1: string, t2: nat, o2: string)
    requires t1 != t2
    ensures StoredName(t1, o1) != StoredName(t2, o2)
  {
    StoredNameInjective(t1, o1, t2, o2);
  }

  /**
   * Within one millisecond the scheme does not avoid clashes: two
   * different originals that differ only in forbidden characters get the
   * same stored name.
   */
  lemma SameInstantCollision(ts: nat)
    ensures StoredName(ts, "a:b") == StoredName(ts, "a?b")
  {
  }

}
