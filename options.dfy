/** VfsOperationOptions: the immutable settings of one copy or move, its
    value equality and hash, and the builder that assembles it. */
module Options {
  import opened Java

  /** One options snapshot. The first nine fields are those of the
      nine-argument constructor; the remaining ones are read by the
      transfer engine (retry budget, naming pairs, SFTP timeout). */
  datatype VfsOperationOptions = VfsOperationOptions(
    sourceDirectory: JString,
    targetDirectory: JString,
    filePatternRegex: JString,
    archiveDirectory: JString,
    createMissingDirectories: bool,
    lockEnabled: bool,
    ftpPassiveMode: bool,
    streamingTransfer: bool,
    streamingBlockSize: JString,
    retryCount: int,
    retryWait: int,
    targetFilePrefix: JString,
    targetFileSuffix: JString,
    archiveFilePrefix: JString,
    archiveFileSuffix: JString,
    sftpTimeout: int)

  /** The nine-argument constructor: every argument is stored as given;
      the fields it does not take keep their Java defaults (null, 0). */
  function NewOptions(sourceDirectory: JString, targetDirectory: JString, filePatternRegex: JString,
                      archiveDirectory: JString, createMissingDirectories: bool, lockEnabled: bool,
                      ftpPassiveMode: bool, streamingTransfer: bool, streamingBlockSize: JString)
    : (o: VfsOperationOptions)
    ensures o.sourceDirectory == sourceDirectory && o.targetDirectory == targetDirectory
    ensures o.filePatternRegex == filePatternRegex && o.archiveDirectory == archiveDirectory
    ensures o.createMissingDirectories == createMissingDirectories && o.lockEnabled == lockEnabled
    ensures o.ftpPassiveMode == ftpPassiveMode && o.streamingTransfer == streamingTransfer
    ensures o.streamingBlockSize == streamingBlockSize
    ensures o.retryCount == 0 && o.retryWait == 0 && o.sftpTimeout == 0
    ensures o.targetFilePrefix.Null? && o.targetFileSuffix.Null?
    ensures o.archiveFilePrefix.Null? && o.archiveFileSuffix.Null?
  {
    VfsOperationOptions(sourceDirectory, targetDirectory, filePatternRegex, archiveDirectory,
                        createMissingDirectories, lockEnabled, ftpPassiveMode, streamingTransfer,
                        streamingBlockSize, 0, 0, Null, Null, Null, Null, 0)
  }

  /** `equals(Object o)`: `other` is None for a null argument. The four flags
      are compared first, then the five strings with null-safe equality. */
  predicate Equals(self: VfsOperationOptions, other: Option<VfsOperationOptions>)
  {
    match other
    case None => false
    case Some(that) =>
      if self == that then true
      else if self.createMissingDirectories != that.createMissingDirectories then false
      else if self.lockEnabled != that.lockEnabled then false
      else if self.ftpPassiveMode != that.ftpPassiveMode then false
      else if self.streamingTransfer != that.streamingTransfer then false
      else if !NullSafeEquals(self.sourceDirectory, that.sourceDirectory) then false
      else if !NullSafeEquals(self.targetDirectory, that.targetDirectory) then false
      else if !NullSafeEquals(self.filePatternRegex, that.filePatternRegex) then false
      else if !NullSafeEquals(self.streamingBlockSize, that.streamingBlockSize) then false
      else NullSafeEquals(self.archiveDirectory, that.archiveDirectory)
  }

  /** The nine fields `equals` and `hashCode` look at agree. */
  predicate SameCompared(a: VfsOperationOptions, b: VfsOperationOptions)
  {
    && a.sourceDirectory == b.sourceDirectory
    && a.targetDirectory == b.targetDirectory
    && a.filePatternRegex == b.filePatternRegex
    && a.archiveDirectory == b.archiveDirectory
    && a.streamingBlockSize == b.streamingBlockSize
    && a.createMissingDirectories == b.createMissingDirectories
    && a.lockEnabled == b.lockEnabled
    && a.ftpPassiveMode == b.ftpPassiveMode
    && a.streamingTransfer == b.streamingTransfer
  }

  /** equals holds exactly when the nine compared fields agree, never for null. */
  lemma EqualsIffSameCompared(a: VfsOperationOptions, b: VfsOperationOptions)
    ensures Equals(a, Some(b)) <==> SameCompared(a, b)
    ensures !Equals(a, None)
  {
    NullSafeEqualsIsEquality(a.sourceDirectory, b.sourceDirectory);
    NullSafeEqualsIsEquality(a.targetDirectory, b.targetDirectory);
    NullSafeEqualsIsEquality(a.filePatternRegex, b.filePatternRegex);
    NullSafeEqualsIsEquality(a.streamingBlockSize, b.streamingBlockSize);
    NullSafeEqualsIsEquality(a.archiveDirectory, b.archiveDirectory);
  }

  lemma EqualsIsEquivalence(a: VfsOperationOptions, b: VfsOperationOptions, c: VfsOperationOptions)
    ensures Equals(a, Some(a))
    ensures Equals(a, Some(b)) <==> Equals(b, Some(a))
    ensures Equals(a, Some(b)) && Equals(b, Some(c)) ==> Equals(a, Some(c))
  {
    EqualsIffSameCompared(a, b);
    EqualsIffSameCompared(b, a);
    EqualsIffSameCompared(b, c);
    EqualsIffSameCompared(a, c);
  }

  /** Options that differ only in the seven fields outside the nine compared
      ones (retry budget, naming pairs, timeout) are equal both ways and hash
      alike. */
  lemma EqualsIgnoresEngineFields(a: VfsOperationOptions, retryCount: int, retryWait: int,
                                  targetFilePrefix: JString, targetFileSuffix: JString,
                                  archiveFilePrefix: JString, archiveFileSuffix: JString,
                                  sftpTimeout: int)
    ensures var b := a.(retryCount := retryCount, retryWait := retryWait,
                        targetFilePrefix := targetFilePrefix, targetFileSuffix := targetFileSuffix,
                        archiveFilePrefix := archiveFilePrefix, archiveFileSuffix := archiveFileSuffix,
                        sftpTimeout := sftpTimeout);
            Equals(a, Some(b)) && Equals(b, Some(a)) && HashCode(a) == HashCode(b)
  {
    var b := a.(retryCount := retryCount, retryWait := retryWait,
                targetFilePrefix := targetFilePrefix, targetFileSuffix := targetFileSuffix,
                archiveFilePrefix := archiveFilePrefix, archiveFileSuffix := archiveFileSuffix,
                sftpTimeout := sftpTimeout);
    EqualsIffSameCompared(a, b);
    EqualsIffSameCompared(b, a);
  }

  function Flag(b: bool): int { if b then 1 else 0 }

  /** `hashCode()`: the usual 31-multiplier chain over the nine compared
      fields, in wrapping 32-bit arithmetic. */
  function HashCode(o: VfsOperationOptions): (r: int)
    ensures IsInt32(r)
  {
    HashChain(o.sourceDirectory, o.targetDirectory, o.filePatternRegex, o.archiveDirectory,
              o.streamingBlockSize, o.createMissingDirectories, o.lockEnabled, o.ftpPassiveMode,
              o.streamingTransfer)
  }

  function HashChain(s0: JString, s1: JString, s2: JString, s3: JString, s4: JString,
                     f0: bool, f1: bool, f2: bool, f3: bool): (r: int)
    ensures IsInt32(r)
  {
    var h0 := NullSafeHash(s0);
    var h1 := Wrap(31 * h0 + NullSafeHash(s1));
    var h2 := Wrap(31 * h1 + NullSafeHash(s2));
    var h3 := Wrap(31 * h2 + NullSafeHash(s3));
    var h4 := Wrap(31 * h3 + NullSafeHash(s4));
    var h5 := Wrap(31 * h4 + Flag(f0));
    var h6 := Wrap(31 * h5 + Flag(f1));
    var h7 := Wrap(31 * h6 + Flag(f2));
    Wrap(31 * h7 + Flag(f3))
  }

  /** equals is consistent with hashCode. */
  lemma EqualOptionsHaveEqualHashes(a: VfsOperationOptions, b: VfsOperationOptions)
    requires Equals(a, Some(b))
    ensures HashCode(a) == HashCode(b)
  {
    EqualsIffSameCompared(a, b);
  }

  /** VfsOperationOptions.Builder (BuilderImpl): the nine fields start at
      their Java defaults; each setter overwrites one field and returns the
      builder; build() passes them to the nine-argument constructor. */
  class Builder {
    var sourceDirectory: JString
    var targetDirectory: JString
    var filePatternRegex: JString
    var archiveDirectory: JString
    var streamingBlockSize: JString
    var createMissingDirectories: bool
    var lockEnabled: bool
    var ftpPassiveMode: bool
    var streamingTransfer: bool

    /** The options build() would return now. */
    function Current(): VfsOperationOptions
      reads this
    {
      NewOptions(sourceDirectory, targetDirectory, filePatternRegex, archiveDirectory,
                 createMissingDirectories, lockEnabled, ftpPassiveMode, streamingTransfer,
                 streamingBlockSize)
    }

    /** `VfsOperationOptions.with()`: a fresh builder with nothing set. */
    constructor ()
      ensures Current() == NewOptions(Null, Null, Null, Null, false, false, false, false, Null)
    {
      sourceDirectory, targetDirectory, filePatternRegex, archiveDirectory := Null, Null, Null, Null;
      streamingBlockSize := Null;
      createMissingDirectories, lockEnabled, ftpPassiveMode, streamingTransfer := false, false, false, false;
    }

    /** build(): the nine-argument constructor over the builder's fields, so
        the fields it does not take keep their defaults. */
    method Build() returns (o: VfsOperationOptions)
      ensures o.sourceDirectory == sourceDirectory && o.targetDirectory == targetDirectory
      ensures o.filePatternRegex == filePatternRegex && o.archiveDirectory == archiveDirectory
      ensures o.streamingBlockSize == streamingBlockSize
      ensures o.createMissingDirectories == createMissingDirectories && o.lockEnabled == lockEnabled
      ensures o.ftpPassiveMode == ftpPassiveMode && o.streamingTransfer == streamingTransfer
      ensures o.retryCount == 0 && o.retryWait == 0 && o.sftpTimeout == 0
      ensures o.targetFilePrefix.Null? && o.targetFileSuffix.Null?
      ensures o.archiveFilePrefix.Null? && o.archiveFileSuffix.Null?
    {
      o := NewOptions(sourceDirectory, targetDirectory, filePatternRegex, archiveDirectory,
                      createMissingDirectories, lockEnabled, ftpPassiveMode, streamingTransfer,
                      streamingBlockSize);
    }

    method SourceDirectory(v: JString) returns (b: Builder)
      modifies this
      ensures b == this && Current() == old(Current()).(sourceDirectory := v)
    {
      sourceDirectory := v;
      b := this;
    }

    method TargetDirectory(v: JString) returns (b: Builder)
      modifies this
      ensures b == this && Current() == old(Current()).(targetDirectory := v)
    {
      targetDirectory := v;
      b := this;
    }

    method FilePatternRegex(v: JString) returns (b: Builder)
      modifies this
      ensures b == this && Current() == old(Current()).(filePatternRegex := v)
    {
      filePatternRegex := v;
      b := this;
    }

    method ArchiveDirectory(v: JString) returns (b: Builder)
      modifies this
      ensures b == this && Current() == old(Current()).(archiveDirectory := v)
    {
      archiveDirectory := v;
      b := this;
    }

    method StreamingBlockSize(v: JString) returns (b: Builder)
      modifies this
      ensures b == this && Current() == old(Current()).(streamingBlockSize := v)
    {
      streamingBlockSize := v;
      b := this;
    }

    method CreateMissingDirectories(v: bool) returns (b: Builder)
      modifies this
      ensures b == this && Current() == old(Current()).(createMissingDirectories := v)
    {
      createMissingDirectories := v;
      b := this;
    }

    method LockEnabled(v: bool) returns (b: Builder)
      modifies this
      ensures b == this && Current() == old(Current()).(lockEnabled := v)
    {
      lockEnabled := v;
      b := this;
    }

    method FtpPassiveModeEnabled(v: bool) returns (b: Builder)
      modifies this
      ensures b == this && Current() == old(Current()).(ftpPassiveMode := v)
    {
      ftpPassiveMode := v;
      b := this;
    }

    method StreamingTransferEnabled(v: bool) returns (b: Builder)
      modifies this
      ensures b == this && Current() == old(Current()).(streamingTransfer := v)
    {
      streamingTransfer := v;
      b := this;
    }
  }
}
