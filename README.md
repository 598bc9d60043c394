# VFS file transfer engine of the WSO2 ESB VFS mediator, in Dafny

The VFS mediator moves or copies the files of a source directory to a
target directory through Apache Commons VFS. Optionally it first copies
each file to an archive directory, guards each destination with a
`.lock` file, renames files with a prefix and suffix, and streams the
content block by block. This project models the core of that mediator
and proves properties of the model:

- **`VfsOperationOptions`** (`options.dfy`, module `Options`): the
  immutable options record, its nine-argument constructor, `equals`,
  `hashCode` (32-bit `String.hashCode` arithmetic, in `java.dfy`) and the
  mutable `BuilderImpl` as a class. The getters are the record's fields.
- **`AbstractVfsOperation` and `VfsMove`** (`operation.dfy`, module
  `Operation`): an operation object (class `VfsMove`) configured by
  setters. `execute` builds the options, validates them and hands them
  to the operation delegate. The delegate is a function value.
- **`VfsFileTransferUtility`**, the batch engine, spread over modules
  that follow its structure:
  - `retrier.dfy` (`Retrier`): the retry loop `doWithRetry`.
  - `backend.dfy` (`Backend`): the file system.
  - `naming.dfy` (`Naming`): destination names and lock paths.
  - `streaming.dfy` (`Streaming`): `streamFromFileToFile`.
  - `transfer.dfy` (`Transfer`): `resolveFile`, `isFolder`,
    `validateFolder`, `listFiles`, the lock protocol, `copyFile`,
    `moveFile` and `doOperation`. `copyFiles` and `moveFiles` are
    `doOperation` with kind `Copy` and `Move`.
  - `batch.dfy` (`Batch`): the loop of `doOperation` as a whole. It covers
    the count, where the files end up, and what the loop may change.

### The world

The file system and its environment are one value, a `World`:

- a map from path to folder or file content;
- the listing order of paths;
- a fault script: every fallible backend call takes the next entry, and
  `true` means the call throws `FileSystemException` without effect;
- an interrupt script: every `Thread.sleep` takes the next entry, and
  `true` means the sleep is interrupted.

Each engine step is a function from the world before it to the world
after it, together with the step's value, `null` or exception. The
imperative parts of the source have methods of their own, each proved
equal to its specification function:

- the retry loop;
- the streaming loop over a byte `array`;
- the loop of `doOperation`, with its counter;
- each copy or move step.

The properties proved about the specification functions fall into
three groups:

- **Frame.** An operation changes only the paths it touches: the target,
  the source for a move, and the lock file.
- **Calm world.** When nothing fails, a file is delivered intact, a move
  removes the source, and no lock file is left behind. Over a whole
  batch (`batch.dfy`, module `Batch`), copyFiles and moveFiles return the
  number of listed files, and the files end where delivering them one by
  one, archive copy first, puts them.
- **Behaviours as written.** Some behaviours of the code are stated as
  lemmas:
  - An interrupted retry wait makes a move delete its source without
    having copied it (`Transfer.MoveLosesFileOnInterrupt`).
  - A failing resolve after the lock was created leaks the lock
    (`Transfer.LockLeaksWhenTargetUnresolved`).
  - An exception while deleting the lock replaces the outcome of the copy
    (`Transfer.ReleaseFailureWins`).

### Where the model follows the code rather than the documentation

- **Extra option fields.** The engine reads options that
  `VfsOperationOptions.java` does not declare:
  - retry count and retry wait;
  - the target and archive prefix/suffix pairs;
  - the SFTP timeout.

  The record carries them as extra fields. The constructor and the
  builder leave them at their Java defaults, 0 and null, as the builder
  shown can set nothing else. `equals` and `hashCode` ignore them, as in
  the code.
- **Interrupted retry.** An interrupted retry wait makes `doWithRetry`
  return `null` rather than throw. Callers then run on with a null
  handle, a null listing or a skipped copy, as the code does.

## Model

| member | source | states |
|---|---|---|
| `Java.OrEmpty` | src/main/java/fi/mystes/synapse/mediator/vfs/VfsFileTransferUtility.java:553-562 | a null prefix or suffix reads as the empty string, a set one as itself |
| `Java.Text` | src/main/java/fi/mystes/synapse/mediator/vfs/VfsFileTransferUtility.java:289-293 | a null directory concatenated into a path is written as "null" |
| `Java.NullSafeEqualsIsEquality` | src/main/java/fi/mystes/synapse/mediator/vfs/VfsOperationOptions.java:186-195 | the null-safe string comparison of equals holds exactly when the two references are equal (both null or the same string) |
| `Java.Wrap` | src/main/java/fi/mystes/synapse/mediator/vfs/VfsOperationOptions.java:205-216 | the int arithmetic of hashCode: the result lies in the 32-bit range and differs from the exact value by a multiple of 2^32 |
| `Java.StringHash` | src/main/java/fi/mystes/synapse/mediator/vfs/VfsOperationOptions.java:206-210 | String.hashCode is a 32-bit int and the empty string hashes to 0 |
| `Java.NullSafeHash` | src/main/java/fi/mystes/synapse/mediator/vfs/VfsOperationOptions.java:206-210 | a null field contributes 0 to hashCode |
| `Options.NewOptions` | src/main/java/fi/mystes/synapse/mediator/vfs/VfsOperationOptions.java:57-69 | the nine-argument constructor stores every argument in its field; retry count, retry wait and SFTP timeout are 0 and the four prefix/suffix fields null |
| `Options.EqualsIffSameCompared` | src/main/java/fi/mystes/synapse/mediator/vfs/VfsOperationOptions.java:170-197 | equals holds exactly when the four flags and the five strings agree, and never for null |
| `Options.EqualsIsEquivalence` | src/main/java/fi/mystes/synapse/mediator/vfs/VfsOperationOptions.java:170-197 | equals is reflexive, symmetric and transitive |
| `Options.EqualsIgnoresEngineFields` | src/main/java/fi/mystes/synapse/mediator/vfs/VfsOperationOptions.java:170-216 | options that differ only in the seven fields outside the nine compared ones (retry count and wait, the two prefix/suffix pairs, the SFTP timeout) are equal in both directions and have the same hashCode |
| `Options.HashCode` | src/main/java/fi/mystes/synapse/mediator/vfs/VfsOperationOptions.java:205-216 | hashCode is a 32-bit int |
| `Options.EqualOptionsHaveEqualHashes` | src/main/java/fi/mystes/synapse/mediator/vfs/VfsOperationOptions.java:170-216 | equal options have equal hash codes |
| `Options.Builder.constructor` | src/main/java/fi/mystes/synapse/mediator/vfs/VfsOperationOptions.java:160-162 | with() gives a builder whose options are those of the constructor called with nulls and false |
| `Options.Builder.Build` | src/main/java/fi/mystes/synapse/mediator/vfs/VfsOperationOptions.java:332-335 | build() gives options holding the builder's nine fields, every other field at its default |
| `Options.Builder.SourceDirectory` | src/main/java/fi/mystes/synapse/mediator/vfs/VfsOperationOptions.java:338-342 | the setter changes only sourceDirectory and returns the same builder |
| `Options.Builder.TargetDirectory` | src/main/java/fi/mystes/synapse/mediator/vfs/VfsOperationOptions.java:345-349 | the setter changes only targetDirectory and returns the same builder |
| `Options.Builder.FilePatternRegex` | src/main/java/fi/mystes/synapse/mediator/vfs/VfsOperationOptions.java:352-356 | the setter changes only filePatternRegex and returns the same builder |
| `Options.Builder.ArchiveDirectory` | src/main/java/fi/mystes/synapse/mediator/vfs/VfsOperationOptions.java:359-363 | the setter changes only archiveDirectory and returns the same builder |
| `Options.Builder.StreamingBlockSize` | src/main/java/fi/mystes/synapse/mediator/vfs/VfsOperationOptions.java:366-370 | the setter changes only streamingBlockSize and returns the same builder |
| `Options.Builder.CreateMissingDirectories` | src/main/java/fi/mystes/synapse/mediator/vfs/VfsOperationOptions.java:373-377 | the setter changes only createMissingDirectories and returns the same builder |
| `Options.Builder.LockEnabled` | src/main/java/fi/mystes/synapse/mediator/vfs/VfsOperationOptions.java:380-384 | the setter changes only lockEnabled and returns the same builder |
| `Options.Builder.FtpPassiveModeEnabled` | src/main/java/fi/mystes/synapse/mediator/vfs/VfsOperationOptions.java:387-391 | the setter changes only ftpPassiveMode and returns the same builder |
| `Options.Builder.StreamingTransferEnabled` | src/main/java/fi/mystes/synapse/mediator/vfs/VfsOperationOptions.java:394-398 | the setter changes only streamingTransfer and returns the same builder |
| `Retrier.DoWithRetry` | src/main/java/fi/mystes/synapse/mediator/vfs/VfsFileTransferUtility.java:593-617 | the do/while loop with its locals retry, retries and ret ends in the state, outcome and call count of the specification Retry |
| `Retrier.CallsBounded` | src/main/java/fi/mystes/synapse/mediator/vfs/VfsFileTransferUtility.java:593-617 | the operation is called at least once and at most retryCount + 1 times (once when retryCount is not positive) |
| `Retrier.FirstSuccessReturned` | src/main/java/fi/mystes/synapse/mediator/vfs/VfsFileTransferUtility.java:597-616 | after caught failures and normal waits, the first successful call within the budget gives its value, after exactly that many calls |
| `Retrier.ExhaustedRethrowsLast` | src/main/java/fi/mystes/synapse/mediator/vfs/VfsFileTransferUtility.java:601-605 | when every call fails with a caught error, the last error is thrown after exactly retryCount + 1 calls |
| `Retrier.InterruptReturnsNull` | src/main/java/fi/mystes/synapse/mediator/vfs/VfsFileTransferUtility.java:608-616 | an interrupted wait after a failed call ends the loop and null is returned, with no exception |
| `Retrier.UncaughtPropagates` | src/main/java/fi/mystes/synapse/mediator/vfs/VfsFileTransferUtility.java:598-601 | an error other than FileSystemException leaves at once, without retry |
| `Retrier.RetryPreserves` | src/main/java/fi/mystes/synapse/mediator/vfs/VfsFileTransferUtility.java:593-617 | any transitive relation that every call and every wait keep also holds between the states before and after the whole loop |
| `Retrier.RetryReturnsGood` | src/main/java/fi/mystes/synapse/mediator/vfs/VfsFileTransferUtility.java:593-617 | an invariant every call and wait keep holds at the end, and a returned value is one a call produced from a state satisfying it |
| `Backend.ChildrenIn` | src/main/java/fi/mystes/synapse/mediator/vfs/VfsFileTransferUtility.java:117 | getChildren lists exactly the existing direct children of the folder, as a subsequence of the listing order (so in that order), no more entries than the order has |
| `Backend.Selected` | src/main/java/fi/mystes/synapse/mediator/vfs/VfsFileTransferUtility.java:205-214 | the filter keeps exactly the entries whose base name the regex matches, as a subsequence of its input (so in order) |
| `Backend.ListingMembers` | src/main/java/fi/mystes/synapse/mediator/vfs/VfsFileTransferUtility.java:111-118 | a listing holds exactly the existing children of the source folder whose base name matches the pattern, and every child when the pattern is null; it is a subsequence of the listing order and has no repeats when the order has none |
| `Backend.CopyEvolves` | src/main/java/fi/mystes/synapse/mediator/vfs/VfsFileTransferUtility.java:313 | copyFrom changes only its destination; a null destination changes nothing |
| `Backend.CreateFileEvolves` | src/main/java/fi/mystes/synapse/mediator/vfs/VfsFileTransferUtility.java:351 | createFile changes only its own path |
| `Backend.CreateFolderEvolves` | src/main/java/fi/mystes/synapse/mediator/vfs/VfsFileTransferUtility.java:499-501 | createFolder changes only its own path |
| `Backend.DeleteEvolves` | src/main/java/fi/mystes/synapse/mediator/vfs/VfsFileTransferUtility.java:320 | delete changes only its own path |
| `Naming.IndexOfExtension` | src/main/java/fi/mystes/synapse/mediator/vfs/VfsFileTransferUtility.java:153-157 | the extension dot is the last dot with no path separator after it, or -1; a name without dots or separators has none |
| `Naming.StemAndExt` | src/main/java/fi/mystes/synapse/mediator/vfs/VfsFileTransferUtility.java:153-157 | removeExtension and getExtension are the two sides of the extension dot; without one the stem is the whole name and the extension empty |
| `Naming.GetPrefix` | src/main/java/fi/mystes/synapse/mediator/vfs/VfsFileTransferUtility.java:553-562 | the prefix of the target pair for TARGET and of the archive pair for ARCHIVE, null read as empty |
| `Naming.GetSuffix` | src/main/java/fi/mystes/synapse/mediator/vfs/VfsFileTransferUtility.java:537-546 | the suffix of the target pair for TARGET and of the archive pair for ARCHIVE, null read as empty |
| `Naming.ExtensionPreserved` | src/main/java/fi/mystes/synapse/mediator/vfs/VfsFileTransferUtility.java:153-157 | a renamed file keeps its non-empty extension and its stem is prefix, old stem and suffix |
| `Naming.PlainNameKept` | src/main/java/fi/mystes/synapse/mediator/vfs/VfsFileTransferUtility.java:153-157 | with no prefix and suffix the name is unchanged exactly when it does not end in its extension dot |
| `Naming.RenamedWithExtension` | src/main/java/fi/mystes/synapse/mediator/vfs/VfsFileTransferUtility.java:153-157 | "a.txt" with prefix "p_" and suffix "_s" becomes "p_a_s.txt" |
| `Naming.RenamedWithoutExtension` | src/main/java/fi/mystes/synapse/mediator/vfs/VfsFileTransferUtility.java:153-157 | "a" with prefix "p_" and suffix "_s" becomes "p_a_s" |
| `Naming.LastExtensionOnly` | src/main/java/fi/mystes/synapse/mediator/vfs/VfsFileTransferUtility.java:153-157 | only the last extension is split off: "archive.tar.gz" has stem "archive.tar" and extension "gz" |
| `Naming.PairsIndependent` | src/main/java/fi/mystes/synapse/mediator/vfs/VfsFileTransferUtility.java:553-562 | a target path depends only on the target pair and an archive path only on the archive pair |
| `Naming.NullPairIsEmpty` | src/main/java/fi/mystes/synapse/mediator/vfs/VfsFileTransferUtility.java:537-562 | for any directory, with both parts of the pair unset the destination is the directory, "/" and the plain renamed base name |
| `Naming.LockFilePath` | src/main/java/fi/mystes/synapse/mediator/vfs/VfsFileTransferUtility.java:454-456 | the lock path is five characters longer than the target path |
| `Naming.LockPathRoundTrip` | src/main/java/fi/mystes/synapse/mediator/vfs/VfsFileTransferUtility.java:37 | the lock path ends in ".lock", the target can be recovered from it, and it is never the target itself |
| `Naming.LockPathInjective` | src/main/java/fi/mystes/synapse/mediator/vfs/VfsFileTransferUtility.java:454-456 | two target paths have the same lock path exactly when they are equal |
| `Streaming.ChosenBlockSize` | src/main/java/fi/mystes/synapse/mediator/vfs/VfsFileTransferUtility.java:382-390 | the configured block size when it is all digits, otherwise (null included) the default "1024"; the result is always all digits |
| `Streaming.BufferLength` | src/main/java/fi/mystes/synapse/mediator/vfs/VfsFileTransferUtility.java:393 | the buffer length is the value of the chosen digits when it fits in an int, otherwise NumberFormatException for those digits |
| `Streaming.DefaultBlockSize` | src/main/java/fi/mystes/synapse/mediator/vfs/VfsFileTransferUtility.java:384-386 | a missing or non-numeric block size gives a 1024-byte buffer |
| `Streaming.ConfiguredBlockSize` | src/main/java/fi/mystes/synapse/mediator/vfs/VfsFileTransferUtility.java:388-393 | "4096" gives 4096 bytes; "0" gives an empty buffer, with which the loop cannot end |
| `Streaming.LongBlockSizeOverflows` | src/main/java/fi/mystes/synapse/mediator/vfs/VfsFileTransferUtility.java:393 | more than ten digits without a leading zero throw NumberFormatException |
| `Streaming.PumpWritesPrefix` | src/main/java/fi/mystes/synapse/mediator/vfs/VfsFileTransferUtility.java:394-396 | the loop writes source bytes in order: what it wrote is a prefix of the rest of the source |
| `Streaming.PumpConsumes` | src/main/java/fi/mystes/synapse/mediator/vfs/VfsFileTransferUtility.java:394-396 | the read loop only consumes the environment's script and changes no node |
| `Streaming.Pump` | src/main/java/fi/mystes/synapse/mediator/vfs/VfsFileTransferUtility.java:392-396 | the while loop over the byte buffer writes, and fails, exactly as the specification PumpFrom says |
| `Streaming.PumpCompleteUnlessFailed` | src/main/java/fi/mystes/synapse/mediator/vfs/VfsFileTransferUtility.java:394-396 | a loop that ends without a failed read has written the whole rest of the source |
| `Streaming.Read` | src/main/java/fi/mystes/synapse/mediator/vfs/VfsFileTransferUtility.java:394 | read(buffer) fills the first length bytes of the buffer with the next source bytes |
| `Streaming.PumpStep` | src/main/java/fi/mystes/synapse/mediator/vfs/VfsFileTransferUtility.java:394-396 | one round writes min(buffer, remaining) bytes and continues after them |
| `Streaming.CalmPumpCopiesAll` | src/main/java/fi/mystes/synapse/mediator/vfs/VfsFileTransferUtility.java:394-396 | when no read fails the loop ends normally having written all remaining bytes |
| `Streaming.WriteStreamEffect` | src/main/java/fi/mystes/synapse/mediator/vfs/VfsFileTransferUtility.java:380-399 | once the output is open only the destination changes; it is a file holding a prefix of the source, all of it when the call returns normally |
| `Streaming.StreamFromFileToFile` | src/main/java/fi/mystes/synapse/mediator/vfs/VfsFileTransferUtility.java:372-423 | the method with its buffer gives the world and outcome of the specification Stream |
| `Streaming.StreamErrors` | src/main/java/fi/mystes/synapse/mediator/vfs/VfsFileTransferUtility.java:400-402 | every I/O failure leaves as SynapseException("Unexpected error during the file transfer"); only a null destination and a block size beyond int escape otherwise |
| `Streaming.StreamEvolves` | src/main/java/fi/mystes/synapse/mediator/vfs/VfsFileTransferUtility.java:372-423 | a stream changes at most the destination |
| `Streaming.StreamWritesPrefix` | src/main/java/fi/mystes/synapse/mediator/vfs/VfsFileTransferUtility.java:372-423 | a stream that returns normally copies the source exactly and changes nothing else; a changed destination holds a prefix of the source |
| `Streaming.CalmStreamCopies` | src/main/java/fi/mystes/synapse/mediator/vfs/VfsFileTransferUtility.java:372-423 | when nothing fails a file streams completely onto a destination that is not a folder |
| `Transfer.Outcome` | src/main/java/fi/mystes/synapse/mediator/vfs/VfsFileTransferUtility.java:616 | a retried call gives its value, null, or its exception, and each case maps to exactly one result |
| `Transfer.FolderCheck` | src/main/java/fi/mystes/synapse/mediator/vfs/VfsFileTransferUtility.java:466-470 | isFolder returns normally exactly when the handle names a folder; otherwise "not a folder", or NullPointerException for a null handle |
| `Transfer.ResolveOnceQuiet` | src/main/java/fi/mystes/synapse/mediator/vfs/VfsFileTransferUtility.java:527 | one resolve changes no node and returns the path asked for |
| `Transfer.ResolvedQuiet` | src/main/java/fi/mystes/synapse/mediator/vfs/VfsFileTransferUtility.java:523-530 | resolveFile changes no node and a handle it returns names the path asked for |
| `Transfer.CalmResolved` | src/main/java/fi/mystes/synapse/mediator/vfs/VfsFileTransferUtility.java:523-530 | when nothing fails a path resolves at the first call |
| `Transfer.LockCreatedEffect` | src/main/java/fi/mystes/synapse/mediator/vfs/VfsFileTransferUtility.java:344-359 | the lock is the target path plus ".lock"; an existing lock throws and creates nothing; on success the lock exists as an empty file and nothing else changed |
| `Transfer.LockCreatedEvolves` | src/main/java/fi/mystes/synapse/mediator/vfs/VfsFileTransferUtility.java:344-359 | createLockFile changes only the lock path |
| `Transfer.CalmLockCreated` | src/main/java/fi/mystes/synapse/mediator/vfs/VfsFileTransferUtility.java:344-359 | when nothing fails and no lock exists, the lock is created and its path returned |
| `Transfer.DeleteAttemptEvolves` | src/main/java/fi/mystes/synapse/mediator/vfs/VfsFileTransferUtility.java:436-443 | one attempt of deleteLockFile changes only the lock path |
| `Transfer.LockDeletedEvolves` | src/main/java/fi/mystes/synapse/mediator/vfs/VfsFileTransferUtility.java:433-445 | deleteLockFile changes only the lock path |
| `Transfer.CalmLockDeleted` | src/main/java/fi/mystes/synapse/mediator/vfs/VfsFileTransferUtility.java:433-445 | when nothing fails deleteLockFile returns normally and only the lock is gone |
| `Transfer.AtomicCopyEvolves` | src/main/java/fi/mystes/synapse/mediator/vfs/VfsFileTransferUtility.java:175-181 | the retried copyFrom changes at most the target |
| `Transfer.StreamedEvolves` | src/main/java/fi/mystes/synapse/mediator/vfs/VfsFileTransferUtility.java:172 | a stream into the resolved target handle changes at most the target |
| `Transfer.StreamStepEvolves` | src/main/java/fi/mystes/synapse/mediator/vfs/VfsFileTransferUtility.java:170-172 | the streamed copy with its own resolve changes at most the target |
| `Transfer.CopyStepEvolves` | src/main/java/fi/mystes/synapse/mediator/vfs/VfsFileTransferUtility.java:170-182 | either copy branch changes at most the target |
| `Transfer.BodyEvolves` | src/main/java/fi/mystes/synapse/mediator/vfs/VfsFileTransferUtility.java:302-322 | the try-block changes at most the target and, for a move, the source |
| `Transfer.LockedEvolves` | src/main/java/fi/mystes/synapse/mediator/vfs/VfsFileTransferUtility.java:300-328 | from the resolve of newLocation to the end of the finally-block, only the target, the source and the lock change |
| `Transfer.TransferredEvolves` | src/main/java/fi/mystes/synapse/mediator/vfs/VfsFileTransferUtility.java:150-196 | an entry that is not a file is left alone and gives false; otherwise only the target, the source and (with locking on) the lock file change |
| `Transfer.CalmAtomicCopy` | src/main/java/fi/mystes/synapse/mediator/vfs/VfsFileTransferUtility.java:175-181 | when nothing fails the retried copy puts the source's content at the target |
| `Transfer.CalmStreamStep` | src/main/java/fi/mystes/synapse/mediator/vfs/VfsFileTransferUtility.java:170-172 | when nothing fails the streamed copy puts the source's content at a target that is not a folder |
| `Transfer.CalmCopyStep` | src/main/java/fi/mystes/synapse/mediator/vfs/VfsFileTransferUtility.java:170-182 | when nothing fails either copy branch puts the source's content at the target |
| `Transfer.CalmBody` | src/main/java/fi/mystes/synapse/mediator/vfs/VfsFileTransferUtility.java:302-322 | when nothing fails the try-block delivers the file, and a move removes the source |
| `Transfer.CalmLocked` | src/main/java/fi/mystes/synapse/mediator/vfs/VfsFileTransferUtility.java:300-328 | when nothing fails the transfer after the lock returns true, delivers the file and deletes the lock |
| `Transfer.CalmLockedTransfer` | src/main/java/fi/mystes/synapse/mediator/vfs/VfsFileTransferUtility.java:295-328 | with locking on and nothing failing, the lock is created, the file delivered and the lock removed again |
| `Transfer.CalmTransferred` | src/main/java/fi/mystes/synapse/mediator/vfs/VfsFileTransferUtility.java:287-332 | when nothing fails copyFile and moveFile return true, the target holds the file, a move removes the source, and no lock file is left |
| `Transfer.ListOnceQuiet` | src/main/java/fi/mystes/synapse/mediator/vfs/VfsFileTransferUtility.java:109-122 | one listing changes no node and returns the current listing |
| `Transfer.RetriedListingQuiet` | src/main/java/fi/mystes/synapse/mediator/vfs/VfsFileTransferUtility.java:107-125 | the retried listing changes no node and returns the listing of the world it started in |
| `Transfer.ListedEffect` | src/main/java/fi/mystes/synapse/mediator/vfs/VfsFileTransferUtility.java:97-134 | listFiles changes no node, throws unless the source is a folder, and an array it returns holds exactly the matching children, in listing order and without repeats when the order has none |
| `Transfer.ArchiveValidatedQuiet` | src/main/java/fi/mystes/synapse/mediator/vfs/VfsFileTransferUtility.java:234-239 | without createMissingDirectories the archive check changes nothing and passes only for a folder (or no archive) |
| `Transfer.PreparedChecksOnly` | src/main/java/fi/mystes/synapse/mediator/vfs/VfsFileTransferUtility.java:230-241 | without createMissingDirectories the steps before the loop change nothing, pass only when target (and a set archive) are folders, and hand the source's listing to the loop |
| `Transfer.ValidatedFolderEffect` | src/main/java/fi/mystes/synapse/mediator/vfs/VfsFileTransferUtility.java:483-489 | validateFolder returns normally only on a handle that is then a folder; it changes at most that path, nothing at all without the create flag, and a null handle throws NullPointerException with no effect |
| `Transfer.CreatedFolder` | src/main/java/fi/mystes/synapse/mediator/vfs/VfsFileTransferUtility.java:483-501 | with createMissingDirectories, in a calm world a path that is not a file becomes a folder and the call returns; an existing folder is left with no node changed; an existing file is kept and the call throws, the folder-creation error when the call itself does not fail |
| `Transfer.ArchiveValidatedEffect` | src/main/java/fi/mystes/synapse/mediator/vfs/VfsFileTransferUtility.java:234-239 | the archive check changes at most the archive folder and passes only with no archive or a folder there |
| `Transfer.TargetValidatedEffect` | src/main/java/fi/mystes/synapse/mediator/vfs/VfsFileTransferUtility.java:230-232 | resolving the target changes no node; validating it then changes at most the target and archive folders and passes only when the target is a folder |
| `Transfer.PreparedEffect` | src/main/java/fi/mystes/synapse/mediator/vfs/VfsFileTransferUtility.java:230-241 | in any world the steps before the loop change at most the target and archive folders; on success both are folders and the loop receives the listing of the source |
| `Transfer.CalmListed` | src/main/java/fi/mystes/synapse/mediator/vfs/VfsFileTransferUtility.java:97-134 | in a calm world listFiles of a source folder returns its listing at the first call and changes no node |
| `Transfer.CalmFolderReady` | src/main/java/fi/mystes/synapse/mediator/vfs/VfsFileTransferUtility.java:483-489 | in a calm world validateFolder of an existing folder passes and changes no node, with or without the create flag |
| `Transfer.CalmResolvedFolder` | src/main/java/fi/mystes/synapse/mediator/vfs/VfsFileTransferUtility.java:230-232 | in a calm world an existing folder resolves at the first call and passes validateFolder with no node changed |
| `Transfer.CalmPreparedReady` | src/main/java/fi/mystes/synapse/mediator/vfs/VfsFileTransferUtility.java:230-241 | in a calm world where the target, a set archive and the source are folders, the steps before the loop change no node and hand the source listing to the loop, whatever the create flag |
| `Transfer.CalmPreparedCreates` | src/main/java/fi/mystes/synapse/mediator/vfs/VfsFileTransferUtility.java:230-241 | with createMissingDirectories in a calm world, a target and a set archive that are not files become folders, no other node changes, and the loop receives the source listing |
| `Transfer.CalmResolvedCreated` | src/main/java/fi/mystes/synapse/mediator/vfs/VfsFileTransferUtility.java:483-501 | with createMissingDirectories in a calm world a resolved directory that is not a file becomes a folder and only it changes |
| `Transfer.CalmArchiveCreated` | src/main/java/fi/mystes/synapse/mediator/vfs/VfsFileTransferUtility.java:234-239 | with createMissingDirectories in a calm world a set archive that is not a file becomes a folder and nothing else changes |
| `Transfer.MissingTargetFailsFirst` | src/main/java/fi/mystes/synapse/mediator/vfs/VfsFileTransferUtility.java:230-232 | a target that is not a folder stops the batch with "not a folder" before anything is listed or copied |
| `Transfer.NonFileSkipped` | src/main/java/fi/mystes/synapse/mediator/vfs/VfsFileTransferUtility.java:193-195 | an entry that is not a file is skipped without effect and does not count |
| `Transfer.ProcessedCountBounded` | src/main/java/fi/mystes/synapse/mediator/vfs/VfsFileTransferUtility.java:243-264 | each entry adds at most one to fileProcessed |
| `Transfer.ProcessedAppend` | src/main/java/fi/mystes/synapse/mediator/vfs/VfsFileTransferUtility.java:243-264 | the loop over two lists of entries is the loop over the first, then the loop over the second with the count reached |
| `Transfer.AbortIgnoresRest` | src/main/java/fi/mystes/synapse/mediator/vfs/VfsFileTransferUtility.java:243-264 | an exception ends the batch; entries after it are never reached |
| `Transfer.NoFilesNoChange` | src/main/java/fi/mystes/synapse/mediator/vfs/VfsFileTransferUtility.java:243-264 | a batch of entries none of which is a file changes nothing and counts nothing |
| `Transfer.OperatedBounded` | src/main/java/fi/mystes/synapse/mediator/vfs/VfsFileTransferUtility.java:225-273 | doOperation returns a count between zero and the number of listed entries |
| `Transfer.InterruptedCopy` | src/main/java/fi/mystes/synapse/mediator/vfs/VfsFileTransferUtility.java:310-316 | a copy whose first call fails and whose wait is interrupted hands null back to moveFile without an exception |
| `Transfer.MoveLosesFileOnInterrupt` | src/main/java/fi/mystes/synapse/mediator/vfs/VfsFileTransferUtility.java:306-321 | a move whose copy is cut short by an interrupted wait still deletes the source and returns true: the file is then at neither place |
| `Transfer.HeldLockBlocks` | src/main/java/fi/mystes/synapse/mediator/vfs/VfsFileTransferUtility.java:344-350 | an existing lock file stops the transfer with an exception before any node changes |
| `Transfer.LockLeaksWhenTargetUnresolved` | src/main/java/fi/mystes/synapse/mediator/vfs/VfsFileTransferUtility.java:295-302 | newLocation is resolved outside the try-block: when that resolve throws, the lock file stays behind |
| `Transfer.ReleaseFailureWins` | src/main/java/fi/mystes/synapse/mediator/vfs/VfsFileTransferUtility.java:187-191 | an exception from deleting the lock in the finally-block replaces the try-block's outcome |
| `Transfer.RetryCall` | src/main/java/fi/mystes/synapse/mediator/vfs/VfsFileTransferUtility.java:589-621 | an anonymous Retrier with the configured retryCount and retryWait gives the outcome of WithRetry |
| `Transfer.ResolveFile` | src/main/java/fi/mystes/synapse/mediator/vfs/VfsFileTransferUtility.java:523-530 | the world and handle of Resolved |
| `Transfer.ListFiles` | src/main/java/fi/mystes/synapse/mediator/vfs/VfsFileTransferUtility.java:97-134 | the world and file list of Listed |
| `Transfer.CreateLockFile` | src/main/java/fi/mystes/synapse/mediator/vfs/VfsFileTransferUtility.java:344-359 | the world and lock path of LockCreated |
| `Transfer.DeleteLockFile` | src/main/java/fi/mystes/synapse/mediator/vfs/VfsFileTransferUtility.java:433-445 | the world and outcome of LockDeleted |
| `Transfer.CopyContent` | src/main/java/fi/mystes/synapse/mediator/vfs/VfsFileTransferUtility.java:170-182 | the world and outcome of CopyStep |
| `Transfer.TryBlock` | src/main/java/fi/mystes/synapse/mediator/vfs/VfsFileTransferUtility.java:166-186 | the world and outcome of Body |
| `Transfer.AfterLock` | src/main/java/fi/mystes/synapse/mediator/vfs/VfsFileTransferUtility.java:164-192 | the world and outcome of Locked |
| `Transfer.TransferFile` | src/main/java/fi/mystes/synapse/mediator/vfs/VfsFileTransferUtility.java:150-196 | the world and outcome of Transferred |
| `Transfer.CopyFile` | src/main/java/fi/mystes/synapse/mediator/vfs/VfsFileTransferUtility.java:150-196 | the world and outcome of Transferred for a copy |
| `Transfer.MoveFile` | src/main/java/fi/mystes/synapse/mediator/vfs/VfsFileTransferUtility.java:287-332 | the world and outcome of Transferred for a move with the target pair |
| `Transfer.ValidateArchive` | src/main/java/fi/mystes/synapse/mediator/vfs/VfsFileTransferUtility.java:234-239 | the world and outcome of ArchiveValidated |
| `Transfer.Prepare` | src/main/java/fi/mystes/synapse/mediator/vfs/VfsFileTransferUtility.java:228-241 | the world and listing of Prepared |
| `Transfer.ProcessEntry` | src/main/java/fi/mystes/synapse/mediator/vfs/VfsFileTransferUtility.java:246-262 | the world and outcome of Entry |
| `Transfer.DoOperation` | src/main/java/fi/mystes/synapse/mediator/vfs/VfsFileTransferUtility.java:225-273 | the loop with its counter fileProcessed gives the world and count of Operated, whose count and final nodes Batch.CalmOperationCounts and Batch.CalmOperationDelivers state |
| `Batch.SafeIsDeliverable` | src/main/java/fi/mystes/synapse/mediator/vfs/VfsFileTransferUtility.java:242-264 | in a safe batch every entry is ready when its turn comes: all entries are files, none is a destination, a move meets each once, a stream can parse its block size and meets no folder, and no lock file is in the way |
| `Batch.BatchHeadReady` | src/main/java/fi/mystes/synapse/mediator/vfs/VfsFileTransferUtility.java:244-258 | the first entry of a safe batch is ready for its round |
| `Batch.BatchSafeStep` | src/main/java/fi/mystes/synapse/mediator/vfs/VfsFileTransferUtility.java:244-264 | a delivered round leaves the rest of a safe batch safe |
| `Batch.ApartStep` | src/main/java/fi/mystes/synapse/mediator/vfs/VfsFileTransferUtility.java:244-264 | a delivered round leaves the rest of the batch files that are no destinations, without repeats for a move |
| `Batch.EntryNodesFrame` | src/main/java/fi/mystes/synapse/mediator/vfs/VfsFileTransferUtility.java:244-258 | one delivered round adds only its destinations, leaves them files, and keeps every other node (the entry too, for a copy) |
| `Batch.DeliveredFrame` | src/main/java/fi/mystes/synapse/mediator/vfs/VfsFileTransferUtility.java:150-220 | one copy or move adds only its target, leaves it a file, keeps the source for a copy, and keeps every other node |
| `Batch.CalmEntry` | src/main/java/fi/mystes/synapse/mediator/vfs/VfsFileTransferUtility.java:244-259 | in a calm world one round over a ready file reports a transfer, leaves the nodes of the archive copy followed by the copy or move, and keeps the world calm |
| `Batch.ProcessedRounds` | src/main/java/fi/mystes/synapse/mediator/vfs/VfsFileTransferUtility.java:242-264 | the loop of doOperation is a loop of rounds, each round the archive copy and then the primary transfer of one entry |
| `Batch.EveryRoundCounts` | src/main/java/fi/mystes/synapse/mediator/vfs/VfsFileTransferUtility.java:242-264 | when every round from an admitted state transfers and leads to an admitted state for the rest, fileProcessed ends at its start plus the number of entries and the state at the end is admitted |
| `Batch.CalmProcessed` | src/main/java/fi/mystes/synapse/mediator/vfs/VfsFileTransferUtility.java:242-264 | in a calm world over a deliverable batch every entry is counted and the final nodes are those of delivering the entries one by one, archive copy first |
| `Batch.OperatedIsProcessed` | src/main/java/fi/mystes/synapse/mediator/vfs/VfsFileTransferUtility.java:225-267 | after a successful preparation doOperation is its loop started with fileProcessed = 0 |
| `Batch.CalmOperated` | src/main/java/fi/mystes/synapse/mediator/vfs/VfsFileTransferUtility.java:225-267 | once a calm preparation has handed on a safe listing, doOperation returns the number of listed files and leaves the nodes of delivering them one by one |
| `Batch.CalmOperationCounts` | src/main/java/fi/mystes/synapse/mediator/vfs/VfsFileTransferUtility.java:63-84 | copyFiles and moveFiles return the amount of files copied or moved: in a calm world with the target, a set archive and the source folders present and a safe listing, the result is the number of listed files and the nodes are those of delivering them one by one |
| `Batch.CalmOperationDelivers` | src/main/java/fi/mystes/synapse/mediator/vfs/VfsFileTransferUtility.java:63-84 | under the same conditions every target and archive destination holds a file afterwards, a move leaves none of the listed files in place, and a copy leaves each as it was |
| `Batch.DestsInBatch` | src/main/java/fi/mystes/synapse/mediator/vfs/VfsFileTransferUtility.java:244-258 | the destinations of every entry are destinations of the batch |
| `Batch.OutsideBatchDests` | src/main/java/fi/mystes/synapse/mediator/vfs/VfsFileTransferUtility.java:244-258 | a path that is no destination of any single entry is no destination of the batch |
| `Batch.EntryDelivers` | src/main/java/fi/mystes/synapse/mediator/vfs/VfsFileTransferUtility.java:244-258 | one delivered round puts the entry content on each of its destinations; a move removes the entry and a copy keeps it |
| `Batch.BatchDomain` | src/main/java/fi/mystes/synapse/mediator/vfs/VfsFileTransferUtility.java:242-264 | a batch adds no path but destinations of its entries |
| `Batch.BatchKeeps` | src/main/java/fi/mystes/synapse/mediator/vfs/VfsFileTransferUtility.java:242-264 | a path that is no destination keeps its node through the batch, unless a move takes it as an entry |
| `Batch.BatchDelivers` | src/main/java/fi/mystes/synapse/mediator/vfs/VfsFileTransferUtility.java:242-264 | after a batch of files that are no destinations, every destination holds a file |
| `Batch.BatchContents` | src/main/java/fi/mystes/synapse/mediator/vfs/VfsFileTransferUtility.java:242-264 | after such a batch, a destination that no later entry reaches holds the content its entry had at the start |
| `Batch.BatchSources` | src/main/java/fi/mystes/synapse/mediator/vfs/VfsFileTransferUtility.java:250-259 | after such a batch a move has removed every entry and a copy has left every entry as it was |
| `Batch.EntryEvolves` | src/main/java/fi/mystes/synapse/mediator/vfs/VfsFileTransferUtility.java:244-259 | whatever the environment does, one round changes only the entry, its destinations and their lock files |
| `Batch.ProcessedEvolves` | src/main/java/fi/mystes/synapse/mediator/vfs/VfsFileTransferUtility.java:242-264 | whatever the environment does, the loop changes only the entries, their destinations and their lock files |
| `Batch.OperatedEvolves` | src/main/java/fi/mystes/synapse/mediator/vfs/VfsFileTransferUtility.java:225-267 | whatever the environment does, doOperation changes only the target and archive folders and, once the listing is in, the listed entries, their destinations and their lock files |
| `Operation.ValidateOptions` | src/main/java/fi/mystes/synapse/mediator/vfs/VfsMove.java:45-52 | validation passes exactly when both directories are set; a failure is a SynapseException |
| `Operation.Delegated` | src/main/java/fi/mystes/synapse/mediator/vfs/VfsMove.java:34-36 | executeImpl returns what the delegate's move returns, and throws NullPointerException without a delegate |
| `Operation.SourceReportedFirst` | src/main/java/fi/mystes/synapse/mediator/vfs/VfsMove.java:46-48 | a missing source directory is reported ("Source directory not set") whatever the target |
| `Operation.MissingTargetReported` | src/main/java/fi/mystes/synapse/mediator/vfs/VfsMove.java:49-51 | with a source but no target, "Target directory not set" is reported |
| `Operation.ValidationGuardsDelegate` | src/main/java/fi/mystes/synapse/mediator/vfs/AbstractVfsOperation.java:113-117 | when validation throws, the delegate is never reached: every delegate gives the same exception |
| `Operation.DelegateResultReturned` | src/main/java/fi/mystes/synapse/mediator/vfs/AbstractVfsOperation.java:113-117 | with both directories set, execute returns exactly what the delegate's move returns |
| `Operation.VfsMove.constructor` | src/main/java/fi/mystes/synapse/mediator/vfs/AbstractVfsOperation.java:26-35 | a new operation has a null delegate, null strings and false flags |
| `Operation.VfsMove.SetOperationDelegate` | src/main/java/fi/mystes/synapse/mediator/vfs/AbstractVfsOperation.java:41-43 | only the delegate changes |
| `Operation.VfsMove.SetSourceDirectory` | src/main/java/fi/mystes/synapse/mediator/vfs/AbstractVfsOperation.java:49-51 | only the source directory of the configured options changes |
| `Operation.VfsMove.SetTargetDirectory` | src/main/java/fi/mystes/synapse/mediator/vfs/AbstractVfsOperation.java:57-59 | only the target directory of the configured options changes |
| `Operation.VfsMove.SetArchiveDirectory` | src/main/java/fi/mystes/synapse/mediator/vfs/AbstractVfsOperation.java:65-67 | only the archive directory of the configured options changes |
| `Operation.VfsMove.SetCreateMissingDirectories` | src/main/java/fi/mystes/synapse/mediator/vfs/AbstractVfsOperation.java:73-75 | only createMissingDirectories of the configured options changes |
| `Operation.VfsMove.SetFilePattern` | src/main/java/fi/mystes/synapse/mediator/vfs/AbstractVfsOperation.java:81-83 | only the file pattern, which becomes filePatternRegex, changes |
| `Operation.VfsMove.SetLockEnabled` | src/main/java/fi/mystes/synapse/mediator/vfs/AbstractVfsOperation.java:89-91 | only lockEnabled of the configured options changes |
| `Operation.VfsMove.SetStreamingTransfer` | src/main/java/fi/mystes/synapse/mediator/vfs/AbstractVfsOperation.java:97-99 | only streamingTransfer of the configured options changes |
| `Operation.VfsMove.SetStreamingBlockSize` | src/main/java/fi/mystes/synapse/mediator/vfs/AbstractVfsOperation.java:105-107 | only the streaming block size of the configured options changes |
| `Operation.VfsMove.SetFtpPassiveMode` | src/main/java/fi/mystes/synapse/mediator/vfs/AbstractVfsOperation.java:123-125 | only ftpPassiveMode of the configured options changes |
| `Operation.VfsMove.ParseOperationOptions` | src/main/java/fi/mystes/synapse/mediator/vfs/AbstractVfsOperation.java:160-166 | the built options carry the nine fields, with the file pattern as filePatternRegex, and every other option at its default |
| `Operation.VfsMove.ExecuteImpl` | src/main/java/fi/mystes/synapse/mediator/vfs/VfsMove.java:34-36 | the result of Delegated for the current delegate |
| `Operation.VfsMove.Execute` | src/main/java/fi/mystes/synapse/mediator/vfs/AbstractVfsOperation.java:113-117 | the result of Executed on the configured options: validate first, then executeImpl on options equal to the validated ones |

## Left out

- `VfsMediator`, its factory and serializer, and the `VfsOperation`
  interface are not part of this model. The operation delegate that
  `VfsMove` calls is a function parameter.
- The `VfsFileTransferUtility` constructor, `initManager` and the closing
  of the file system manager are left out. These cover manager setup,
  FTP passive mode and the SFTP timeout. They configure only the
  connection.
- Logging and `fileObjectNameForDebug` are left out: they have no effect
  on files or results.
- The length of `Thread.sleep` is not modelled. Only its outcome is:
  normal end, interruption, or `IllegalArgumentException` for a negative
  wait.
- Regular expressions are a parameter `matches(regex, name)`, which
  stands for `String.matches`.
- `getType`, `exists`, `close`, `flush`, `getContent` and
  `getName().getURI()` never fail, and a file handle is its path. The
  lock file's URI is its path.
- Input and output stream failures are drawn from the fault script. A
  failed write is not modelled separately from a failed read.
- `createFolder` creates only the folder itself. Missing parents are not
  created, and an existing file at that path is refused.
- `copyFrom` onto an existing folder replaces the folder with the copied
  file.
- A stream reads a snapshot of the source content taken when it is
  opened. Streaming a file onto itself is therefore not modelled.
- `new byte[n]` for a huge `n` can throw `OutOfMemoryError`. This is not
  modelled.
- `Transfer.CopyStep`, and every member that calls it, requires
  `StreamSafe`. Under it, a block size that parses to 0 is excluded when
  streaming is on: the source then loops forever on an empty buffer.
- `Transfer.DoOperation` counts `fileProcessed` with unbounded integers.
  Java's int overflow after 2^31 files is not modelled.
- The `default` branches of `getPrefix` and `getSuffix` and the
  unsupported-operation branch of `doOperation` cannot be reached. The
  model's enumerations have no other value.
- `initFileFilter` is modelled as the predicate of `Backend.Selected`.
  Its object wrapper is left out.
- `manager.resolveFile(null, …)` is modelled as a `NullPointerException`
  that the retrier does not catch (`Backend.ResolveOnce` with a null
  path). What Commons VFS does with a null path is not part of this
  model.
- The listing order of a `World` may hold a path twice. Getting a folder's
  children from Commons VFS lists each child once. The batch lemmas do not
  assume this for copies. For moves they require a listing without
  repeats, and `Backend.ListingMembers` shows that a listing has none
  when the order has none.
- Batch.CalmOperationCounts: stated for a safe listing (`Batch.BatchSafe`)
  in a calm world. Entries that are not files, destinations that coincide
  with entries, and failing calls are covered by `Transfer.OperatedBounded`,
  `Transfer.AbortIgnoresRest` and the frame lemmas rather than by an exact count.
- The tests of the repository are not part of this model.
