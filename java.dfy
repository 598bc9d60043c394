/** The few pieces of Java semantics the transfer engine relies on:
    nullable strings, 32-bit int arithmetic, String.hashCode and the
    exceptions the engine throws or lets through. */
module Java {

  /** A reference that may be null. */
  datatype Option<+T> = None | Some(value: T)

  /** A java.lang.String reference: either null or a string value. */
  datatype JString = Null | Str(value: string)

  /** `s == null ? "" : s`, the mapping the engine applies to prefixes and suffixes. */
  function OrEmpty(s: JString): (r: string)
    ensures s.Null? ==> r == ""
    ensures s.Str? ==> r == s.value
  {
    match s
    case Null => ""
    case Str(v) => v
  }

  /** A String operand of `+`: null is written as "null". */
  function Text(s: JString): (r: string)
    ensures s.Str? ==> r == s.value
    ensures s.Null? ==> r == "null"
  {
    if s.Null? then "null" else s.value
  }

  /** `a != null ? a.equals(b) : b == null`: null-safe String equality. */
  predicate NullSafeEquals(a: JString, b: JString)
  {
    if a.Str? then b.Str? && a.value == b.value else b.Null?
  }

  lemma NullSafeEqualsIsEquality(a: JString, b: JString)
    ensures NullSafeEquals(a, b) <==> a == b
  {
  }

  const TwoTo31: int := 0x8000_0000
  const TwoTo32: int := 0x1_0000_0000

  predicate IsInt32(x: int) { -TwoTo31 <= x < TwoTo31 }

  /** Two's-complement wrap-around of a Java `int` expression. */
  function Wrap(x: int): (r: int)
    ensures IsInt32(r)
    ensures (r - x) % TwoTo32 == 0
  {
    (x + TwoTo31) % TwoTo32 - TwoTo31
  }

  /** The UTF-16 code units Java stores for one Unicode scalar value. */
  function Utf16(c: char): (units: seq<int>)
    ensures 1 <= |units| <= 2
    ensures forall i :: 0 <= i < |units| ==> 0 <= units[i] < 0x1_0000
    ensures |units| == 1 <==> (c as int) < 0x1_0000
  {
    var v := c as int;
    if v < 0x1_0000 then [v]
    else [0xD800 + (v - 0x1_0000) / 0x400, 0xDC00 + (v - 0x1_0000) % 0x400]
  }

  /** Folds `h = 31 * h + unit` over code units, in int arithmetic. */
  function HashUnits(h: int, units: seq<int>): (r: int)
    requires IsInt32(h)
    ensures IsInt32(r)
    decreases units
  {
    if units == [] then h else HashUnits(Wrap(31 * h + units[0]), units[1..])
  }

  /** java.lang.String.hashCode over the UTF-16 encoding of `s`. */
  function StringHash(s: string): (r: int)
    ensures IsInt32(r)
    ensures s == [] ==> r == 0
  {
    StringHashFrom(0, s)
  }

  function StringHashFrom(h: int, s: string): (r: int)
    requires IsInt32(h)
    ensures IsInt32(r)
    decreases s
  {
    if s == [] then h else StringHashFrom(HashUnits(h, Utf16(s[0])), s[1..])
  }

  /** `s != null ? s.hashCode() : 0` */
  function NullSafeHash(s: JString): (r: int)
    ensures IsInt32(r)
    ensures s.Null? ==> r == 0
  {
    if s.Null? then 0 else StringHash(s.value)
  }

  /** No character of s is c. */
  predicate Lacks(s: string, c: char) { forall k :: 0 <= k < |s| ==> s[k] != c }

  /** String.lastIndexOf(c): the index of the last occurrence of c, or -1. */
  function LastIndexOf(s: string, c: char): (r: int)
    ensures -1 <= r < |s|
    ensures r >= 0 ==> s[r] == c
    ensures forall k :: r < k < |s| ==> s[k] != c
  {
    if s == [] then -1
    else if s[|s| - 1] == c then |s| - 1
    else LastIndexOf(s[..|s| - 1], c)
  }

  /** What follows the last c of p: a suffix of p without c (all of p when c is absent). */
  function AfterLast(p: string, c: char): (tail: string)
    ensures Lacks(tail, c)
    ensures |tail| <= |p| && tail == p[|p| - |tail|..]
    ensures Lacks(p, c) ==> tail == p
  {
    var i := LastIndexOf(p, c);
    assert Lacks(p, c) ==> i == -1;
    LacksAfter(p, i, c);
    p[i + 1..]
  }

  lemma LacksAfter(p: string, i: int, c: char)
    requires -1 <= i < |p|
    requires forall k :: i < k < |p| ==> p[k] != c
    ensures Lacks(p[i + 1..], c)
  {
  }

  /** Reasons of org.apache.commons.vfs2.FileSystemException that the model distinguishes. */
  datatype FsReason =
    | BackendFailure              // a failure reported by the backend (a fault of the environment)
    | NotAFolder(path: string)    // isFolder found another type
    | LockFileExists(path: string)
    | NoSuchFile(path: string)    // a copy or stream whose source is not a file
    | FolderCreation(path: string)

  /** The exceptions that can leave the engine. */
  datatype Exception =
    | FileSystemException(reason: FsReason)
    | SynapseException(message: string)
    | NullPointerException
    | NumberFormatException(input: string)
    | IllegalArgumentException    // Thread.sleep with a negative wait

  /** A call that returns a value or throws. */
  datatype Result<+T> = Ok(value: T) | Throws(error: Exception)

  predicate IsFileSystemException(e: Exception) { e.FileSystemException? }
}
