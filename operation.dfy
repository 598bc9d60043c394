/** AbstractVfsOperation and VfsMove: an operation object configured by
    setters, which builds its options, validates them and hands them to
    its delegate. */
module Operation {
  import opened Java
  import opened Options

  const SourceNotSet: string := "Source directory not set"
  const TargetNotSet: string := "Target directory not set"

  /** The delegate's move(options), or null. */
  type Delegate = Option<VfsOperationOptions -> Result<int>>

  /** VfsMove.validateOptions: the source directory is checked before the target directory. */
  function ValidateOptions(o: VfsOperationOptions): (r: Result<()>)
    ensures r.Ok? <==> o.sourceDirectory.Str? && o.targetDirectory.Str?
    ensures r.Throws? ==> r.error.SynapseException?
  {
    if o.sourceDirectory.Null? then Throws(SynapseException(SourceNotSet))
    else if o.targetDirectory.Null? then Throws(SynapseException(TargetNotSet))
    else Ok(())
  }

  /** VfsMove.executeImpl: `getOperationDelegate().move(options)`. */
  function Delegated(delegate: Delegate, o: VfsOperationOptions): (r: Result<int>)
    ensures delegate.None? ==> r == Throws(NullPointerException)
    ensures delegate.Some? ==> r == delegate.value(o)
  {
    match delegate
    case None => Throws(NullPointerException)
    case Some(move) => move(o)
  }

  /** execute() on options built from the fields: validate, then executeImpl. */
  function Executed(o: VfsOperationOptions, delegate: Delegate): Result<int>
  {
    match ValidateOptions(o)
    case Throws(e) => Throws(e)
    case Ok(_) => Delegated(delegate, o)
  }

  /** A missing source directory is reported first, whatever the target is. */
  lemma SourceReportedFirst(o: VfsOperationOptions, delegate: Delegate)
    requires o.sourceDirectory.Null?
    ensures Executed(o, delegate) == Throws(SynapseException(SourceNotSet))
  {
  }

  lemma MissingTargetReported(o: VfsOperationOptions, delegate: Delegate)
    requires o.sourceDirectory.Str? && o.targetDirectory.Null?
    ensures Executed(o, delegate) == Throws(SynapseException(TargetNotSet))
  {
  }

  /** When validation throws, the delegate is never reached: any two
      delegates give the same outcome. */
  lemma ValidationGuardsDelegate(o: VfsOperationOptions, d1: Delegate, d2: Delegate)
    requires ValidateOptions(o).Throws?
    ensures Executed(o, d1) == Executed(o, d2) == Throws(ValidateOptions(o).error)
  {
  }

  /** With both directories set, execute returns exactly what the
      delegate's move returns for these options. */
  lemma DelegateResultReturned(o: VfsOperationOptions, move: VfsOperationOptions -> Result<int>)
    requires o.sourceDirectory.Str? && o.targetDirectory.Str?
    ensures Executed(o, Some(move)) == move(o)
  {
  }

  /** An operation object: the delegate and the nine configured fields. */
  class VfsMove {
    var delegate: Delegate
    var sourceDirectory: JString
    var targetDirectory: JString
    var archiveDirectory: JString
    var filePattern: JString
    var streamingBlockSize: JString
    var createMissingDirectories: bool
    var streamingTransfer: bool
    var lockEnabled: bool
    var ftpPassiveMode: bool

    /** The options the current fields describe. */
    function Configured(): VfsOperationOptions
      reads this
    {
      NewOptions(sourceDirectory, targetDirectory, filePattern, archiveDirectory,
                 createMissingDirectories, lockEnabled, ftpPassiveMode, streamingTransfer,
                 streamingBlockSize)
    }

    /** A new operation: every reference null, every flag false. */
    constructor ()
      ensures delegate.None?
      ensures Configured() == NewOptions(Null, Null, Null, Null, false, false, false, false, Null)
    {
      delegate := None;
      sourceDirectory, targetDirectory, archiveDirectory, filePattern, streamingBlockSize := Null, Null, Null, Null, Null;
      createMissingDirectories, streamingTransfer, lockEnabled, ftpPassiveMode := false, false, false, false;
    }

    method SetOperationDelegate(d: Delegate)
      modifies this
      ensures delegate == d && Configured() == old(Configured())
    {
      delegate := d;
    }

    method SetSourceDirectory(v: JString)
      modifies this
      ensures delegate == old(delegate) && Configured() == old(Configured()).(sourceDirectory := v)
    {
      sourceDirectory := v;
    }

    method SetTargetDirectory(v: JString)
      modifies this
      ensures delegate == old(delegate) && Configured() == old(Configured()).(targetDirectory := v)
    {
      targetDirectory := v;
    }

    method SetArchiveDirectory(v: JString)
      modifies this
      ensures delegate == old(delegate) && Configured() == old(Configured()).(archiveDirectory := v)
    {
      archiveDirectory := v;
    }

    method SetCreateMissingDirectories(v: bool)
      modifies this
      ensures delegate == old(delegate) && Configured() == old(Configured()).(createMissingDirectories := v)
    {
      createMissingDirectories := v;
    }

    /** The pattern becomes the options' filePatternRegex. */
    method SetFilePattern(v: JString)
      modifies this
      ensures delegate == old(delegate) && Configured() == old(Configured()).(filePatternRegex := v)
    {
      filePattern := v;
    }

    method SetLockEnabled(v: bool)
      modifies this
      ensures delegate == old(delegate) && Configured() == old(Configured()).(lockEnabled := v)
    {
      lockEnabled := v;
    }

    method SetStreamingTransfer(v: bool)
      modifies this
      ensures delegate == old(delegate) && Configured() == old(Configured()).(streamingTransfer := v)
    {
      streamingTransfer := v;
    }

    method SetStreamingBlockSize(v: JString)
      modifies this
      ensures delegate == old(delegate) && Configured() == old(Configured()).(streamingBlockSize := v)
    {
      streamingBlockSize := v;
    }

    method SetFtpPassiveMode(v: bool)
      modifies this
      ensures delegate == old(delegate) && Configured() == old(Configured()).(ftpPassiveMode := v)
    {
      ftpPassiveMode := v;
    }

    /** parseOperationOptions: the builder chain over the nine fields. The
        options carry exactly the fields, and the engine settings keep the
        builder's defaults. */
    method ParseOperationOptions() returns (o: VfsOperationOptions)
      ensures o.sourceDirectory == sourceDirectory && o.targetDirectory == targetDirectory
      ensures o.filePatternRegex == filePattern && o.archiveDirectory == archiveDirectory
      ensures o.streamingBlockSize == streamingBlockSize
      ensures o.createMissingDirectories == createMissingDirectories && o.lockEnabled == lockEnabled
      ensures o.ftpPassiveMode == ftpPassiveMode && o.streamingTransfer == streamingTransfer
      ensures o.retryCount == 0 && o.retryWait == 0 && o.sftpTimeout == 0
      ensures o.targetFilePrefix.Null? && o.targetFileSuffix.Null?
      ensures o.archiveFilePrefix.Null? && o.archiveFileSuffix.Null?
    {
      var b := new Builder();
      b := b.SourceDirectory(sourceDirectory);
      b := b.TargetDirectory(targetDirectory);
      b := b.FilePatternRegex(filePattern);
      b := b.ArchiveDirectory(archiveDirectory);
      b := b.CreateMissingDirectories(createMissingDirectories);
      b := b.LockEnabled(lockEnabled);
      b := b.FtpPassiveModeEnabled(ftpPassiveMode);
      b := b.StreamingTransferEnabled(streamingTransfer);
      b := b.StreamingBlockSize(streamingBlockSize);
      o := b.Build();
    }

    /** VfsMove.executeImpl. */
    method ExecuteImpl(o: VfsOperationOptions) returns (r: Result<int>)
      ensures r == Delegated(delegate, o)
    {
      if delegate.None? {
        return Throws(NullPointerException);
      }
      r := delegate.value(o);
    }

    /** execute(): parse, validate, parse again and run executeImpl on the
        second options, which equal the validated ones. */
    method Execute() returns (r: Result<int>)
      ensures r == Executed(Configured(), delegate)
    {
      var options := ParseOperationOptions();
      var validated := ValidateOptions(options);
      if validated.Throws? {
        return Throws(validated.error);
      }
      var again := ParseOperationOptions();
      assert again == options;
      r := ExecuteImpl(again);
    }
  }
}
