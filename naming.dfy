/** Where a transferred file goes: the split of a base name into stem and
    extension (FilenameUtils.removeExtension / getExtension), the
    prefix/suffix pair of the destination kind, the destination path and
    the path of its lock file. */
module Naming {
  import opened Java
  import opened Options

  /** Whether a file goes to the target directory or to the archive. */
  datatype TargetType = Target | Archive

  /** No character of s is a dot or a path separator. */
  predicate Plain(s: string)
  {
    forall k :: 0 <= k < |s| ==> s[k] != '.' && s[k] != '/' && s[k] != '\\'
  }

  /** FilenameUtils.indexOfExtension: the position of the last '.', or -1
      when there is none or a '/' or '\' comes after it. Scanning from the
      end, the first dot or separator decides. */
  function IndexOfExtension(name: string): (r: int)
    ensures -1 <= r < |name|
    ensures r >= 0 ==> name[r] == '.' && Plain(name[r + 1..])
    ensures Plain(name) ==> r == -1
  {
    if name == [] then -1
    else
      var last := name[|name| - 1];
      if last == '.' then |name| - 1
      else if last == '/' || last == '\\' then -1
      else
        var r := IndexOfExtension(name[..|name| - 1]);
        assert r >= 0 ==> name[r + 1..] == name[..|name| - 1][r + 1..] + [last];
        r
  }

  /** FilenameUtils.removeExtension. */
  function Stem(name: string): string
  {
    var i := IndexOfExtension(name);
    if i == -1 then name else name[..i]
  }

  /** FilenameUtils.getExtension: empty when there is no extension dot. */
  function Ext(name: string): string
  {
    var i := IndexOfExtension(name);
    if i == -1 then "" else name[i + 1..]
  }

  /** The stem and the extension are the two sides of the extension dot. */
  lemma StemAndExt(name: string)
    ensures IndexOfExtension(name) == -1 ==> Stem(name) == name && Ext(name) == ""
    ensures IndexOfExtension(name) >= 0 ==> name == Stem(name) + "." + Ext(name)
  {
    var i := IndexOfExtension(name);
    if i >= 0 {
      assert name == name[..i] + "." + name[i + 1..];
    }
  }

  /** The file name written at the destination: prefix, stem, suffix and,
      when the extension is not empty, a dot and the extension. */
  function TargetName(prefix: string, suffix: string, baseName: string): string
  {
    prefix + Stem(baseName) + suffix + (if Ext(baseName) == "" then "" else "." + Ext(baseName))
  }

  /** getPrefix: the pair for the destination kind, null read as "". */
  function GetPrefix(o: VfsOperationOptions, t: TargetType): (r: string)
    ensures t == Target ==> r == OrEmpty(o.targetFilePrefix)
    ensures t == Archive ==> r == OrEmpty(o.archiveFilePrefix)
  {
    match t
    case Target => OrEmpty(o.targetFilePrefix)
    case Archive => OrEmpty(o.archiveFilePrefix)
  }

  /** getSuffix: the pair for the destination kind, null read as "". */
  function GetSuffix(o: VfsOperationOptions, t: TargetType): (r: string)
    ensures t == Target ==> r == OrEmpty(o.targetFileSuffix)
    ensures t == Archive ==> r == OrEmpty(o.archiveFileSuffix)
  {
    match t
    case Target => OrEmpty(o.targetFileSuffix)
    case Archive => OrEmpty(o.archiveFileSuffix)
  }

  /** The targetPath of copyFile and moveFile. */
  function TargetPath(o: VfsOperationOptions, dir: string, t: TargetType, baseName: string): string
  {
    dir + "/" + TargetName(GetPrefix(o, t), GetSuffix(o, t), baseName)
  }

  /** A non-empty extension survives renaming: whatever the prefix and the
      suffix hold, the renamed file has the same extension, and its stem
      is the prefix, the old stem and the suffix. */
  lemma ExtensionPreserved(prefix: string, suffix: string, baseName: string)
    requires Ext(baseName) != ""
    ensures Ext(TargetName(prefix, suffix, baseName)) == Ext(baseName)
    ensures Stem(TargetName(prefix, suffix, baseName)) == prefix + Stem(baseName) + suffix
  {
    var e := Ext(baseName);
    var head := prefix + Stem(baseName) + suffix;
    assert TargetName(prefix, suffix, baseName) == head + "." + e;
    DotBeforePlain(head, e);
    assert (head + "." + e)[|head| + 1..] == e && (head + "." + e)[..|head|] == head;
  }

  /** The extension dot of head + "." + tail, for a plain tail, is the one before the tail. */
  lemma {:induction false} DotBeforePlain(head: string, tail: string)
    requires Plain(tail)
    ensures IndexOfExtension(head + "." + tail) == |head|
    decreases |tail|
  {
    var n := head + "." + tail;
    if tail == [] {
      assert n[|n| - 1] == '.';
    } else {
      var t' := tail[..|tail| - 1];
      assert n[|n| - 1] == tail[|tail| - 1];
      assert n[..|n| - 1] == head + "." + t';
      assert Plain(t') by {
        assert forall k :: 0 <= k < |t'| ==> t'[k] == tail[k];
      }
      DotBeforePlain(head, t');
    }
  }

  /** Without a prefix and a suffix a name is kept exactly when it does not
      end with its extension dot: "a.txt" and "a" stay, "a." loses the dot. */
  lemma PlainNameKept(baseName: string)
    ensures TargetName("", "", baseName) == baseName
            <==> !(IndexOfExtension(baseName) >= 0 && Ext(baseName) == "")
  {
    StemAndExt(baseName);
    var i := IndexOfExtension(baseName);
    var n := TargetName("", "", baseName);
    if i == -1 {
      assert n == baseName;
    } else if Ext(baseName) == "" {
      assert n == Stem(baseName) && |Stem(baseName)| == i == |baseName| - 1;
    } else {
      assert n == Stem(baseName) + "." + Ext(baseName);
    }
  }

  /** The renaming of the engine applied to "a.txt", to "a" and to a doubled extension. */
  lemma RenamedWithExtension()
    ensures TargetName("p_", "_s", "a.txt") == "p_a_s.txt"
  {
    DotBeforePlain("a", "txt");
    assert "a" + "." + "txt" == "a.txt";
    assert IndexOfExtension("a.txt") == 1;
    assert "a.txt"[2..] == "txt" && "a.txt"[..1] == "a";
  }

  lemma RenamedWithoutExtension()
    ensures TargetName("p_", "_s", "a") == "p_a_s"
  {
    assert IndexOfExtension("a") == -1 by { assert Plain("a"); }
  }

  lemma LastExtensionOnly()
    ensures Stem("archive.tar.gz") == "archive.tar" && Ext("archive.tar.gz") == "gz"
  {
    DotBeforePlain("archive.tar", "gz");
    assert "archive.tar" + "." + "gz" == "archive.tar.gz";
    assert IndexOfExtension("archive.tar.gz") == 11;
    assert "archive.tar.gz"[12..] == "gz" && "archive.tar.gz"[..11] == "archive.tar";
  }

  /** A target path depends on the target pair only, an archive path on
      the archive pair only. */
  lemma PairsIndependent(o: VfsOperationOptions, o': VfsOperationOptions, dir: string, baseName: string)
    ensures o.targetFilePrefix == o'.targetFilePrefix && o.targetFileSuffix == o'.targetFileSuffix
            ==> TargetPath(o, dir, Target, baseName) == TargetPath(o', dir, Target, baseName)
    ensures o.archiveFilePrefix == o'.archiveFilePrefix && o.archiveFileSuffix == o'.archiveFileSuffix
            ==> TargetPath(o, dir, Archive, baseName) == TargetPath(o', dir, Archive, baseName)
  {
  }

  /** With an unset pair the name is the plain base name (up to a trailing dot). */
  lemma NullPairIsEmpty(o: VfsOperationOptions, dir: string, t: TargetType, baseName: string)
    requires t == Target ==> o.targetFilePrefix.Null? && o.targetFileSuffix.Null?
    requires t == Archive ==> o.archiveFilePrefix.Null? && o.archiveFileSuffix.Null?
    ensures TargetPath(o, dir, t, baseName) == dir + "/" + TargetName("", "", baseName)
  {
    assert GetPrefix(o, t) == "" && GetSuffix(o, t) == "";
  }

  const LockFileSuffix: string := ".lock"

  /** lockFilePath: the target path with ".lock" appended. */
  function LockFilePath(targetPath: string): (l: string)
    ensures |l| == |targetPath| + 5
  {
    targetPath + LockFileSuffix
  }

  /** The target a lock file belongs to. */
  function LockedTarget(lockPath: string): (t: string)
    requires |lockPath| >= 5 && lockPath[|lockPath| - 5..] == LockFileSuffix
  {
    lockPath[..|lockPath| - 5]
  }

  /** The lock path determines its target, and a lock never sits on the
      target itself. */
  lemma LockPathRoundTrip(targetPath: string)
    ensures LockFilePath(targetPath)[|targetPath|..] == LockFileSuffix
    ensures LockedTarget(LockFilePath(targetPath)) == targetPath
    ensures LockFilePath(targetPath) != targetPath
  {
  }

  lemma LockPathInjective(t1: string, t2: string)
    ensures LockFilePath(t1) == LockFilePath(t2) <==> t1 == t2
  {
    if LockFilePath(t1) == LockFilePath(t2) {
      LockPathRoundTrip(t1);
      LockPathRoundTrip(t2);
    }
  }
}
