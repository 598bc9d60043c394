/** VfsFileTransferUtility: the batch engine. Every step is a function of
    the world before it, giving the world after it and the step's value or
    exception; the methods further down run the same steps one statement
    at a time and are proved equal to these functions. */
module Transfer {
  import opened Java
  import opened Retrier
  import opened Backend
  import opened Options
  import opened Naming
  import opened Streaming

  /** The two batch operations, copyFiles and moveFiles. */
  datatype Kind = Copy | Move

  /** The retrier catches FileSystemException and nothing else. */
  predicate Catches(e: Exception) { e.FileSystemException? }

  /** What a retried call hands back to its caller: a value, null, or an exception. */
  function Outcome<T>(r: Retried<T, Exception>): (o: Result<Option<T>>)
    ensures r.Returned? <==> o.Ok? && o.value.Some?
    ensures r.ReturnedNull? <==> o == Ok(None)
    ensures r.Raised? <==> o.Throws?
  {
    match r
    case Returned(v) => Ok(Some(v))
    case ReturnedNull => Ok(None)
    case Raised(e) => Throws(e)
  }

  /** `new Retrier<T>() { operation() }.doWithRetry(retryCount, retryWait)`. */
  function WithRetry<T>(o: VfsOperationOptions, op: World -> (World, Attempt<T, Exception>), w: World)
    : (World, Result<Option<T>>)
  {
    var run := Retry(op, Catches, Sleep(o.retryWait), o.retryCount, w);
    (run.state, Outcome(run.result))
  }

  /** resolveFile(manager, path): manager.resolveFile under the retrier. */
  function Resolved(o: VfsOperationOptions, path: JString, w: World): (World, Result<Option<Path>>)
  {
    WithRetry(o, ResolveOnce(path), w)
  }

  /** isFolder(handle): throws unless the handle names a folder. */
  function FolderCheck(handle: Option<Path>, w: World): (r: Result<()>)
    ensures r.Ok? <==> handle.Some? && IsFolder(w, handle.value)
    ensures handle.None? ==> r == Throws(NullPointerException)
    ensures handle.Some? && !IsFolder(w, handle.value) ==> r == Throws(FileSystemException(NotAFolder(handle.value)))
  {
    if handle.None? then Throws(NullPointerException)
    else if !IsFolder(w, handle.value) then Throws(FileSystemException(NotAFolder(handle.value)))
    else Ok(())
  }

  /** validateFolder(handle, createMissingDirectories). */
  function ValidatedFolder(handle: Option<Path>, create: bool, w: World): (World, Result<()>)
  {
    if !create then (w, FolderCheck(handle, w))
    else if handle.None? then (w, Throws(NullPointerException))
    else CreateFolderOnce(w, handle.value)
  }

  /** listFiles(sourceDirectory, filePatternRegex): resolve, check the
      folder, then the retried listing. A null result stands for the null
      array an interrupted retry returns. */
  function Listed(o: VfsOperationOptions, matches: (string, string) -> bool, w: World)
    : (World, Result<Option<seq<Path>>>)
  {
    var (w1, dir) := Resolved(o, o.sourceDirectory, w);
    if dir.Throws? then (w1, Throws(dir.error))
    else
      match FolderCheck(dir.value, w1)
      case Throws(e) => (w1, Throws(e))
      case Ok(_) => WithRetry(o, ListOnce(dir.value.value, o.filePatternRegex, matches), w1)
  }

  /* ----- The lock protocol. ----- */

  /** createLockFile(targetPath): the lock path of the target, refused when
      something is there already, otherwise created empty. */
  function LockCreated(o: VfsOperationOptions, targetPath: Path, w: World): (World, Result<Path>)
  {
    var (w1, lock) := Resolved(o, Str(LockFilePath(targetPath)), w);
    if lock.Throws? then (w1, Throws(lock.error))
    else if lock.value.None? then (w1, Throws(NullPointerException))
    else if lock.value.value in w1.nodes then (w1, Throws(FileSystemException(LockFileExists(lock.value.value))))
    else
      var (w2, c) := CreateFileOnce(w1, lock.value.value);
      if c.Throws? then (w2, Throws(c.error)) else (w2, Ok(lock.value.value))
  }

  /** The operation deleteLockFile retries: resolve (itself retried), then delete. */
  function DeleteAttempt(o: VfsOperationOptions, lockPath: Path): World -> (World, Attempt<(), Exception>)
  {
    (w: World) =>
      var (w1, lock) := Resolved(o, Str(lockPath), w);
      if lock.Throws? then (w1, Failure(lock.error))
      else if lock.value.None? then (w1, Failure(NullPointerException))
      else
        var (w2, d) := DeleteOnce(w1, lock.value.value);
        (w2, if d.Throws? then Failure(d.error) else Success(()))
  }

  /** deleteLockFile(lockPath). An interrupted wait returns normally. */
  function LockDeleted(o: VfsOperationOptions, lockPath: Path, w: World): (World, Result<()>)
  {
    var (w1, r) := WithRetry(o, DeleteAttempt(o, lockPath), w);
    (w1, if r.Throws? then Throws(r.error) else Ok(()))
  }

  /* ----- One file. ----- */

  /** The streamed copy needs a block size it can terminate with. */
  predicate StreamSafe(o: VfsOperationOptions)
  {
    o.streamingTransfer ==> BufferUsable(o.streamingBlockSize)
  }

  /** The copy step of the try-block: a stream into a freshly resolved
      handle (not retried), or the retried newLocation.copyFrom(file). */
  function CopyStep(o: VfsOperationOptions, file: Path, targetPath: Path, newLocation: Option<Path>, w: World)
    : (World, Result<()>)
    requires StreamSafe(o)
  {
    if o.streamingTransfer then
      var (w1, out) := Resolved(o, Str(targetPath), w);
      if out.Throws? then (w1, Throws(out.error))
      else Stream(o.streamingBlockSize, file, out.value, w1)
    else
      var (w1, r) := WithRetry(o, CopyOnce(file, newLocation), w);
      (w1, if r.Throws? then Throws(r.error) else Ok(()))
  }

  /** The try-block of copyFile and moveFile: copy, newLocation.close(),
      and for a move file.delete(). */
  function Body(o: VfsOperationOptions, kind: Kind, file: Path, targetPath: Path,
                newLocation: Option<Path>, w: World): (World, Result<()>)
    requires StreamSafe(o)
  {
    var (w1, c) := CopyStep(o, file, targetPath, newLocation, w);
    if c.Throws? then (w1, c)
    else if newLocation.None? then (w1, Throws(NullPointerException))
    else if kind == Copy then (w1, Ok(()))
    else DeleteOnce(w1, file)
  }

  /** The finally-block: the lock, when there is one, is deleted, and an
      exception from that deletion replaces the try-block's outcome. */
  function Released(o: VfsOperationOptions, lock: Option<Path>, body: Result<()>, w: World)
    : (World, Result<bool>)
  {
    if lock.None? then (w, if body.Throws? then Throws(body.error) else Ok(true))
    else
      var (w1, d) := LockDeleted(o, lock.value, w);
      (w1, if d.Throws? then Throws(d.error) else if body.Throws? then Throws(body.error) else Ok(true))
  }

  /** After the lock: newLocation is resolved before the try-block. */
  function Locked(o: VfsOperationOptions, kind: Kind, file: Path, targetPath: Path, lock: Option<Path>, w: World)
    : (World, Result<bool>)
    requires StreamSafe(o)
  {
    var (w1, newLocation) := Resolved(o, Str(targetPath), w);
    if newLocation.Throws? then (w1, Throws(newLocation.error))
    else
      var (w2, b) := Body(o, kind, file, targetPath, newLocation.value, w1);
      Released(o, lock, b, w2)
  }

  /** copyFile (kind Copy) and moveFile (kind Move, always the target pair). */
  function Transferred(o: VfsOperationOptions, kind: Kind, file: Path, dir: string, lockEnabled: bool,
                       t: TargetType, w: World): (World, Result<bool>)
    requires StreamSafe(o)
  {
    if !IsFile(w, file) then (w, Ok(false))
    else
      var targetPath := TargetPath(o, dir, t, BaseName(file));
      if lockEnabled then
        var (w1, lock) := LockCreated(o, targetPath, w);
        if lock.Throws? then (w1, Throws(lock.error))
        else Locked(o, kind, file, targetPath, Some(lock.value), w1)
      else Locked(o, kind, file, targetPath, None, w)
  }

  /* ----- The batch. ----- */

  /** One round of the loop of doOperation: the archive copy when an
      archive directory is set, then the primary copy or move. */
  function Entry(o: VfsOperationOptions, kind: Kind, file: Path, w: World): (World, Result<bool>)
    requires StreamSafe(o)
  {
    if o.archiveDirectory.Str? then
      var (w1, a) := Transferred(o, Copy, file, o.archiveDirectory.value, o.lockEnabled, Archive, w);
      if a.Throws? then (w1, Throws(a.error)) else Primary(o, kind, file, w1)
    else Primary(o, kind, file, w)
  }

  function Primary(o: VfsOperationOptions, kind: Kind, file: Path, w: World): (World, Result<bool>)
    requires StreamSafe(o)
  {
    Transferred(o, kind, file, Text(o.targetDirectory), o.lockEnabled, Target, w)
  }

  /** The loop over the listed entries with its counter; the first
      exception ends the batch. */
  function Processed(o: VfsOperationOptions, kind: Kind, entries: seq<Path>, count: int, w: World)
    : (World, Result<int>)
    requires StreamSafe(o)
    decreases |entries|
  {
    if entries == [] then (w, Ok(count))
    else
      var (w1, r) := Entry(o, kind, entries[0], w);
      if r.Throws? then (w1, Throws(r.error))
      else Processed(o, kind, entries[1..], if r.value then count + 1 else count, w1)
  }

  /** The archive directory check, when one is set. */
  function ArchiveValidated(o: VfsOperationOptions, w: World): (World, Result<()>)
  {
    if o.archiveDirectory.Null? then (w, Ok(()))
    else
      var (w1, dir) := Resolved(o, o.archiveDirectory, w);
      if dir.Throws? then (w1, Throws(dir.error))
      else ValidatedFolder(dir.value, o.createMissingDirectories, w1)
  }

  /** What doOperation does before its loop: the target directory, the
      archive directory, then the listing of the source. */
  function Prepared(o: VfsOperationOptions, matches: (string, string) -> bool, w: World)
    : (World, Result<seq<Path>>)
  {
    var (w1, target) := Resolved(o, o.targetDirectory, w);
    if target.Throws? then (w1, Throws(target.error))
    else
      var (w2, v) := ValidatedFolder(target.value, o.createMissingDirectories, w1);
      if v.Throws? then (w2, Throws(v.error))
      else
        var (w3, a) := ArchiveValidated(o, w2);
        if a.Throws? then (w3, Throws(a.error))
        else
          var (w4, listed) := Listed(o, matches, w3);
          if listed.Throws? then (w4, Throws(listed.error))
          else if listed.value.None? then (w4, Throws(NullPointerException))
          else (w4, Ok(listed.value.value))
  }

  /** doOperation(kind): the number of files copied or moved. */
  function Operated(o: VfsOperationOptions, kind: Kind, matches: (string, string) -> bool, w: World)
    : (World, Result<int>)
    requires StreamSafe(o)
  {
    var (w1, entries) := Prepared(o, matches, w);
    if entries.Throws? then (w1, Throws(entries.error))
    else Processed(o, kind, entries.value, 0, w1)
  }

  /* ----- Resolving. ----- */

  /** b follows a without any change of node or listing order. */
  predicate Quiet(a: World, b: World)
  {
    Consumes(a, b) && b.nodes == a.nodes && b.order == a.order
  }

  lemma QuietTransitive(a: World, b: World, c: World)
    requires Quiet(a, b) && Quiet(b, c)
    ensures Quiet(a, c)
  {
    ConsumesTransitive(a, b, c);
  }

  lemma SleepQuiet(retryWait: int, w: World)
    ensures Quiet(w, StateOf(Sleep(retryWait)(w)))
  {
    var w' := StateOf(Sleep(retryWait)(w));
    if retryWait >= 0 && w.interrupts != [] {
      assert w' == w.(interrupts := w.interrupts[1..]);
      assert w'.interrupts == w.interrupts[|w.interrupts| - |w'.interrupts|..];
    } else {
      assert w' == w;
    }
  }

  lemma ResolveOnceQuiet(path: JString, w: World)
    ensures Quiet(w, StateOf(ResolveOnce(path)(w)))
    ensures ResolveOnce(path)(w).1.Success? ==> path.Str? && ResolveOnce(path)(w).1.value == path.value
  {
    var w' := StateOf(ResolveOnce(path)(w));
    if path.Str? && w.faults != [] {
      assert w' == w.(faults := w.faults[1..]);
      assert w'.faults == w.faults[|w.faults| - |w'.faults|..];
    } else {
      assert w' == w;
    }
  }

  /** Resolving changes no node, and a handle it returns names the path asked for. */
  lemma ResolvedQuiet(o: VfsOperationOptions, path: JString, w: World)
    ensures Quiet(w, Resolved(o, path, w).0)
    ensures Resolved(o, path, w).1.Ok? && Resolved(o, path, w).1.value.Some? ==>
              path.Str? && Resolved(o, path, w).1.value.value == path.value
  {
    var op := ResolveOnce(path);
    var inv := (x: World) => Quiet(w, x);
    var good := (p: Path) => path.Str? && p == path.value;
    forall x | inv(x) ensures inv(StateOf(op(x))) && (op(x).1.Success? ==> good(op(x).1.value)) {
      ResolveOnceQuiet(path, x);
      QuietTransitive(w, x, StateOf(op(x)));
    }
    forall x | inv(x) ensures inv(StateOf(Sleep(o.retryWait)(x))) {
      SleepQuiet(o.retryWait, x);
      QuietTransitive(w, x, StateOf(Sleep(o.retryWait)(x)));
    }
    RetryReturnsGood(op, Catches, Sleep(o.retryWait), o.retryCount, 0, w, inv, good);
  }

  /** In a calm world a path resolves at the first call. */
  lemma CalmResolved(o: VfsOperationOptions, path: string, w: World)
    requires Calm(w)
    ensures Resolved(o, Str(path), w).1 == Ok(Some(path))
    ensures Calm(Resolved(o, Str(path), w).0)
  {
    CalmPrimitives(w, path, "", Null, (a: string, b: string) => true, "", "");
    ResolvedQuiet(o, Str(path), w);
    CalmStaysCalm(w, Resolved(o, Str(path), w).0);
  }

  /* ----- The lock protocol, proved. ----- */

  /** createLockFile: the lock is the target path with ".lock"; when
      anything is there already the call throws and creates nothing;
      otherwise the lock exists afterwards as an empty file and nothing
      else changed. A failure of the backend also leaves the nodes as
      they were. */
  lemma LockCreatedEffect(o: VfsOperationOptions, targetPath: Path, w: World)
    ensures var (w', r) := LockCreated(o, targetPath, w);
            var lp := LockFilePath(targetPath);
            Consumes(w, w')
            && (r.Ok? ==> r.value == lp && lp !in w.nodes && w'.nodes == w.nodes[lp := File([])])
            && (r.Throws? ==> w'.nodes == w.nodes)
            && (lp in w.nodes ==> r.Throws?)
  {
    var lp := LockFilePath(targetPath);
    var (w1, lock) := Resolved(o, Str(lp), w);
    ResolvedQuiet(o, Str(lp), w);
    var (w', r) := LockCreated(o, targetPath, w);
    if lock.Throws? || lock.value.None? || lp in w1.nodes {
      assert w' == w1 && r.Throws?;
    } else {
      assert lock.value.value == lp;
      NextFaultConsumes(w1);
      var (w2, c) := CreateFileOnce(w1, lp);
      assert w' == w2;
      ConsumesTransitive(w, w1, NextFault(w1).0);
      if c.Ok? {
        assert w2.nodes == w1.nodes[lp := File([])];
      } else {
        assert w2.nodes == w1.nodes;
      }
    }
  }

  /** The lock file's part in the world: only the lock path changes. */
  lemma LockCreatedEvolves(o: VfsOperationOptions, targetPath: Path, w: World)
    ensures Evolves(w, LockCreated(o, targetPath, w).0, {LockFilePath(targetPath)})
  {
    LockCreatedEffect(o, targetPath, w);
  }

  /** In a calm world without a lock file, the lock is created. */
  lemma CalmLockCreated(o: VfsOperationOptions, targetPath: Path, w: World)
    requires Calm(w) && LockFilePath(targetPath) !in w.nodes
    ensures LockCreated(o, targetPath, w).1 == Ok(LockFilePath(targetPath))
    ensures Calm(LockCreated(o, targetPath, w).0)
  {
    var lp := LockFilePath(targetPath);
    CalmResolved(o, lp, w);
    ResolvedQuiet(o, Str(lp), w);
    var w1 := Resolved(o, Str(lp), w).0;
    CalmPrimitives(w1, lp, "", Null, (a: string, b: string) => true, lp, "");
    LockCreatedEffect(o, targetPath, w);
    CalmStaysCalm(w, LockCreated(o, targetPath, w).0);
  }

  /** One attempt of deleteLockFile changes only the lock path. */
  lemma DeleteAttemptEvolves(o: VfsOperationOptions, lockPath: Path, w: World)
    ensures Evolves(w, StateOf(DeleteAttempt(o, lockPath)(w)), {lockPath})
  {
    var (w1, lock) := Resolved(o, Str(lockPath), w);
    ResolvedQuiet(o, Str(lockPath), w);
    if lock.Ok? && lock.value.Some? {
      DeleteEvolves(w1, lockPath);
      assert Evolves(w, w1, {});
      EvolvesTransitive(w, w1, DeleteOnce(w1, lockPath).0, {}, {lockPath});
    }
  }

  /** deleteLockFile changes only the lock path. */
  lemma LockDeletedEvolves(o: VfsOperationOptions, lockPath: Path, w: World)
    ensures Evolves(w, LockDeleted(o, lockPath, w).0, {lockPath})
  {
    var keeps := (a: World, b: World) => Evolves(a, b, {lockPath});
    forall x ensures keeps(x, StateOf(DeleteAttempt(o, lockPath)(x))) {
      DeleteAttemptEvolves(o, lockPath, x);
    }
    forall x ensures keeps(x, StateOf(Sleep(o.retryWait)(x))) {
      SleepQuiet(o.retryWait, x);
    }
    forall x, y, z | keeps(x, y) && keeps(y, z) ensures keeps(x, z) {
      EvolvesTransitive(x, y, z, {lockPath}, {lockPath});
    }
    RetryPreserves(DeleteAttempt(o, lockPath), Catches, Sleep(o.retryWait), o.retryCount, 0, w, keeps);
  }

  /** In a calm world deleteLockFile returns normally and the lock is gone. */
  lemma CalmLockDeleted(o: VfsOperationOptions, lockPath: Path, w: World)
    requires Calm(w)
    ensures LockDeleted(o, lockPath, w).1 == Ok(())
    ensures LockDeleted(o, lockPath, w).0.nodes == w.nodes - {lockPath}
    ensures Calm(LockDeleted(o, lockPath, w).0)
  {
    CalmResolved(o, lockPath, w);
    var w1 := Resolved(o, Str(lockPath), w).0;
    CalmPrimitives(w1, lockPath, "", Null, (a: string, b: string) => true, lockPath, "");
    var w2 := DeleteOnce(w1, lockPath).0;
    assert DeleteAttempt(o, lockPath)(w) == (w2, Success(()));
    DeleteEvolves(w1, lockPath);
    ResolvedQuiet(o, Str(lockPath), w);
    NextFaultConsumes(w1);
    assert w2 == Remove(NextFault(w1).0, lockPath);
    ConsumesTransitive(w, w1, w2);
    CalmStaysCalm(w, w2);
  }

  /* ----- What one file transfer may change. ----- */

  lemma QuietEvolves(w: World, w': World, touched: set<Path>)
    requires Quiet(w, w')
    ensures Evolves(w, w', touched)
  {
  }

  /** The retried copyFrom changes at most the target. */
  lemma AtomicCopyEvolves(o: VfsOperationOptions, file: Path, newLocation: Option<Path>, targetPath: Path, w: World)
    requires newLocation.None? || newLocation == Some(targetPath)
    ensures Evolves(w, WithRetry(o, CopyOnce(file, newLocation), w).0, {targetPath})
  {
    var keeps := (a: World, b: World) => Evolves(a, b, {targetPath});
    forall x ensures keeps(x, StateOf(CopyOnce(file, newLocation)(x))) {
      CopyEvolves(x, file, newLocation);
    }
    forall x ensures keeps(x, StateOf(Sleep(o.retryWait)(x))) {
      SleepQuiet(o.retryWait, x);
    }
    forall x, y, z | keeps(x, y) && keeps(y, z) ensures keeps(x, z) {
      EvolvesTransitive(x, y, z, {targetPath}, {targetPath});
    }
    RetryPreserves(CopyOnce(file, newLocation), Catches, Sleep(o.retryWait), o.retryCount, 0, w, keeps);
  }

  /** A stream into the resolved handle changes at most the target. */
  lemma StreamedEvolves(blockSize: JString, file: Path, targetPath: Path, dst: Option<Path>, w: World)
    requires BufferUsable(blockSize)
    requires dst.Some? ==> dst.value == targetPath
    ensures Evolves(w, Stream(blockSize, file, dst, w).0, {targetPath})
  {
    if dst.Some? {
      StreamEvolves(blockSize, file, targetPath, w);
    } else {
      NextFaultConsumes(w);
      assert Stream(blockSize, file, dst, w).0 == NextFault(w).0;
    }
  }

  /** The streamed copy step, after its own resolve, changes at most the target. */
  lemma StreamStepEvolves(o: VfsOperationOptions, file: Path, targetPath: Path, w: World)
    requires BufferUsable(o.streamingBlockSize)
    ensures var r := Resolved(o, Str(targetPath), w);
            r.1.Ok? ==> Evolves(w, Stream(o.streamingBlockSize, file, r.1.value, r.0).0, {targetPath})
  {
    var r := Resolved(o, Str(targetPath), w);
    ResolvedQuiet(o, Str(targetPath), w);
    if r.1.Ok? {
      StreamedEvolves(o.streamingBlockSize, file, targetPath, r.1.value, r.0);
      QuietThenEvolves(w, r.0, Stream(o.streamingBlockSize, file, r.1.value, r.0).0, {targetPath});
    }
  }

  lemma QuietThenEvolves(a: World, b: World, c: World, touched: set<Path>)
    requires Quiet(a, b) && Evolves(b, c, touched)
    ensures Evolves(a, c, touched)
  {
    ConsumesTransitive(a, b, c);
    forall p | p !in touched ensures SameAt(a, c, p) {
      assert SameAt(b, c, p);
    }
  }

  /** The copy step changes at most the target. */
  lemma CopyStepEvolves(o: VfsOperationOptions, file: Path, targetPath: Path, newLocation: Option<Path>, w: World)
    requires StreamSafe(o)
    requires newLocation.None? || newLocation == Some(targetPath)
    ensures Evolves(w, CopyStep(o, file, targetPath, newLocation, w).0, {targetPath})
  {
    if o.streamingTransfer {
      var r := Resolved(o, Str(targetPath), w);
      ResolvedQuiet(o, Str(targetPath), w);
      StreamStepEvolves(o, file, targetPath, w);
      if r.1.Throws? {
        assert CopyStep(o, file, targetPath, newLocation, w).0 == r.0;
      } else {
        assert CopyStep(o, file, targetPath, newLocation, w).0 == Stream(o.streamingBlockSize, file, r.1.value, r.0).0;
      }
    } else {
      AtomicCopyEvolves(o, file, newLocation, targetPath, w);
      assert CopyStep(o, file, targetPath, newLocation, w).0 == WithRetry(o, CopyOnce(file, newLocation), w).0;
    }
  }

  /** The try-block changes at most the target and, for a move, the source. */
  lemma BodyEvolves(o: VfsOperationOptions, kind: Kind, file: Path, targetPath: Path,
                    newLocation: Option<Path>, w: World)
    requires StreamSafe(o)
    requires newLocation.None? || newLocation == Some(targetPath)
    ensures Evolves(w, Body(o, kind, file, targetPath, newLocation, w).0, {targetPath, file})
  {
    var (w1, c) := CopyStep(o, file, targetPath, newLocation, w);
    CopyStepEvolves(o, file, targetPath, newLocation, w);
    EvolvesWider(w, w1, {targetPath}, {targetPath, file});
    if c.Ok? && newLocation.Some? && kind == Move {
      DeleteEvolves(w1, file);
      EvolvesTransitive(w, w1, DeleteOnce(w1, file).0, {targetPath, file}, {file});
      assert {targetPath, file} + {file} == {targetPath, file};
    }
  }

  /** The paths a transfer of `file` to targetPath may change: the target,
      the source, and the lock when locking is on. */
  function Touched(file: Path, targetPath: Path, lockEnabled: bool): set<Path>
  {
    {targetPath, file} + (if lockEnabled then {LockFilePath(targetPath)} else {})
  }

  lemma LockedEvolves(o: VfsOperationOptions, kind: Kind, file: Path, targetPath: Path, lock: Option<Path>, w: World)
    requires StreamSafe(o)
    ensures Evolves(w, Locked(o, kind, file, targetPath, lock, w).0,
                    {targetPath, file} + (if lock.Some? then {lock.value} else {}))
  {
    var touched := {targetPath, file} + (if lock.Some? then {lock.value} else {});
    var (w1, newLocation) := Resolved(o, Str(targetPath), w);
    ResolvedQuiet(o, Str(targetPath), w);
    QuietEvolves(w, w1, {});
    if newLocation.Ok? {
      var (w2, b) := Body(o, kind, file, targetPath, newLocation.value, w1);
      BodyEvolves(o, kind, file, targetPath, newLocation.value, w1);
      EvolvesTransitive(w, w1, w2, {}, {targetPath, file});
      EvolvesWider(w, w2, {targetPath, file}, touched);
      var w3 := Released(o, lock, b, w2).0;
      if lock.Some? {
        LockDeletedEvolves(o, lock.value, w2);
        EvolvesTransitive(w, w2, w3, touched, {lock.value});
        assert touched + {lock.value} == touched;
      }
    } else {
      EvolvesWider(w, w1, {}, touched);
    }
  }

  /** copyFile and moveFile change only the target, the source and, with
      locking on, the lock file: with locking off no lock file appears.
      An entry that is not a file is left alone and counts as false. */
  lemma TransferredEvolves(o: VfsOperationOptions, kind: Kind, file: Path, dir: string, lockEnabled: bool,
                           t: TargetType, w: World)
    requires StreamSafe(o)
    ensures !IsFile(w, file) ==> Transferred(o, kind, file, dir, lockEnabled, t, w) == (w, Ok(false))
    ensures IsFile(w, file) ==>
              Evolves(w, Transferred(o, kind, file, dir, lockEnabled, t, w).0,
                      Touched(file, TargetPath(o, dir, t, BaseName(file)), lockEnabled))
  {
    if IsFile(w, file) {
      var tp := TargetPath(o, dir, t, BaseName(file));
      var touched := Touched(file, tp, lockEnabled);
      if lockEnabled {
        var (w1, lock) := LockCreated(o, tp, w);
        LockCreatedEvolves(o, tp, w);
        LockCreatedEffect(o, tp, w);
        if lock.Ok? {
          LockedEvolves(o, kind, file, tp, Some(lock.value), w1);
          EvolvesTransitive(w, w1, Locked(o, kind, file, tp, Some(lock.value), w1).0,
                            {LockFilePath(tp)}, {tp, file} + {lock.value});
          assert {LockFilePath(tp)} + ({tp, file} + {lock.value}) == touched;
        } else {
          EvolvesWider(w, w1, {LockFilePath(tp)}, touched);
        }
      } else {
        LockedEvolves(o, kind, file, tp, None, w);
      }
    }
  }

  /* ----- A calm world: every transfer succeeds. ----- */

  /** The nodes after a successful transfer: the target holds the source's
      content and, for a move, the source is gone afterwards (also when
      the target is the source itself). */
  function Delivered(kind: Kind, file: Path, targetPath: Path, nodes: map<Path, Node>): map<Path, Node>
    requires file in nodes && nodes[file].File?
  {
    var copied := nodes[targetPath := File(nodes[file].content)];
    if kind == Copy then copied else copied - {file}
  }

  lemma CalmAtomicCopy(o: VfsOperationOptions, file: Path, targetPath: Path, w: World)
    requires Calm(w) && IsFile(w, file)
    ensures WithRetry(o, CopyOnce(file, Some(targetPath)), w).1 == Ok(Some(()))
    ensures WithRetry(o, CopyOnce(file, Some(targetPath)), w).0.nodes
            == w.nodes[targetPath := File(w.nodes[file].content)]
    ensures Calm(WithRetry(o, CopyOnce(file, Some(targetPath)), w).0)
  {
    CalmPrimitives(w, "", "", Null, (a: string, b: string) => true, file, targetPath);
    NextFaultConsumes(w);
    var w1 := NextFault(w).0;
    var w' := Put(w1, targetPath, File(w1.nodes[file].content));
    assert CopyOnce(file, Some(targetPath))(w) == (w', Success(()));
    assert Consumes(w, w');
    CalmStaysCalm(w, w');
  }

  lemma CalmStreamStep(o: VfsOperationOptions, file: Path, targetPath: Path, w: World)
    requires BufferUsable(o.streamingBlockSize) && BufferLength(o.streamingBlockSize).Ok?
    requires Calm(w) && IsFile(w, file) && !IsFolder(w, targetPath)
    ensures var r := Resolved(o, Str(targetPath), w);
            r.1 == Ok(Some(targetPath))
            && Stream(o.streamingBlockSize, file, Some(targetPath), r.0).1 == Ok(())
            && Stream(o.streamingBlockSize, file, Some(targetPath), r.0).0.nodes
               == w.nodes[targetPath := File(w.nodes[file].content)]
            && Calm(Stream(o.streamingBlockSize, file, Some(targetPath), r.0).0)
  {
    var w1 := Resolved(o, Str(targetPath), w).0;
    CalmResolved(o, targetPath, w);
    ResolvedQuiet(o, Str(targetPath), w);
    CalmStreamCopies(o.streamingBlockSize, file, targetPath, w1);
    StreamWritesPrefix(o.streamingBlockSize, file, targetPath, w1);
    StreamEvolves(o.streamingBlockSize, file, targetPath, w1);
    CalmStaysCalm(w1, Stream(o.streamingBlockSize, file, Some(targetPath), w1).0);
  }

  /** What the copy step needs to succeed in a calm world. */
  predicate CopyReady(o: VfsOperationOptions, file: Path, targetPath: Path, w: World)
  {
    IsFile(w, file)
    && (o.streamingTransfer ==> BufferLength(o.streamingBlockSize).Ok? && !IsFolder(w, targetPath))
  }

  lemma CalmCopyStep(o: VfsOperationOptions, file: Path, targetPath: Path, w: World)
    requires StreamSafe(o) && Calm(w) && CopyReady(o, file, targetPath, w)
    ensures CopyStep(o, file, targetPath, Some(targetPath), w).1 == Ok(())
    ensures CopyStep(o, file, targetPath, Some(targetPath), w).0.nodes
            == w.nodes[targetPath := File(w.nodes[file].content)]
    ensures Calm(CopyStep(o, file, targetPath, Some(targetPath), w).0)
  {
    if o.streamingTransfer {
      CalmStreamStep(o, file, targetPath, w);
      var r := Resolved(o, Str(targetPath), w);
      assert CopyStep(o, file, targetPath, Some(targetPath), w)
             == Stream(o.streamingBlockSize, file, Some(targetPath), r.0);
    } else {
      CalmAtomicCopy(o, file, targetPath, w);
    }
  }

  lemma CalmBody(o: VfsOperationOptions, kind: Kind, file: Path, targetPath: Path, w: World)
    requires StreamSafe(o) && Calm(w) && CopyReady(o, file, targetPath, w)
    ensures Body(o, kind, file, targetPath, Some(targetPath), w).1 == Ok(())
    ensures Body(o, kind, file, targetPath, Some(targetPath), w).0.nodes == Delivered(kind, file, targetPath, w.nodes)
    ensures Calm(Body(o, kind, file, targetPath, Some(targetPath), w).0)
  {
    CalmCopyStep(o, file, targetPath, w);
    var w1 := CopyStep(o, file, targetPath, Some(targetPath), w).0;
    if kind == Move {
      CalmPrimitives(w1, "", "", Null, (a: string, b: string) => true, file, targetPath);
      NextFaultConsumes(w1);
      assert Body(o, kind, file, targetPath, Some(targetPath), w) == DeleteOnce(w1, file);
      assert DeleteOnce(w1, file).0 == Remove(NextFault(w1).0, file);
      CalmStaysCalm(w1, DeleteOnce(w1, file).0);
    }
  }

  /** With the lock in place (or none), the resolved target receives the
      file, the lock is deleted and the call returns true. */
  lemma CalmLocked(o: VfsOperationOptions, kind: Kind, file: Path, targetPath: Path, lock: Option<Path>, w: World)
    requires StreamSafe(o) && Calm(w) && CopyReady(o, file, targetPath, w)
    ensures Locked(o, kind, file, targetPath, lock, w).1 == Ok(true)
    ensures Locked(o, kind, file, targetPath, lock, w).0.nodes
            == Delivered(kind, file, targetPath, w.nodes) - (if lock.Some? then {lock.value} else {})
    ensures Calm(Locked(o, kind, file, targetPath, lock, w).0)
  {
    var w1 := Resolved(o, Str(targetPath), w).0;
    CalmResolved(o, targetPath, w);
    ResolvedQuiet(o, Str(targetPath), w);
    CalmBody(o, kind, file, targetPath, w1);
    var w2 := Body(o, kind, file, targetPath, Some(targetPath), w1).0;
    assert Locked(o, kind, file, targetPath, lock, w)
           == Released(o, lock, Ok(()), w2);
    if lock.Some? {
      CalmLockDeleted(o, lock.value, w2);
    } else {
      assert w2.nodes == w2.nodes - {};
    }
  }

  /** The lock is created, the file transferred and the lock removed again. */
  lemma CalmLockedTransfer(o: VfsOperationOptions, kind: Kind, file: Path, targetPath: Path, w: World)
    requires StreamSafe(o) && Calm(w) && CopyReady(o, file, targetPath, w)
    requires LockFilePath(targetPath) !in w.nodes
    ensures LockCreated(o, targetPath, w).1 == Ok(LockFilePath(targetPath))
    ensures var w1 := LockCreated(o, targetPath, w).0;
            var w' := Locked(o, kind, file, targetPath, Some(LockFilePath(targetPath)), w1).0;
            Locked(o, kind, file, targetPath, Some(LockFilePath(targetPath)), w1).1 == Ok(true)
            && w'.nodes == Delivered(kind, file, targetPath, w.nodes)
            && Calm(w')
  {
    var lp := LockFilePath(targetPath);
    CalmLockCreated(o, targetPath, w);
    LockCreatedEffect(o, targetPath, w);
    var w1 := LockCreated(o, targetPath, w).0;
    assert w1.nodes == w.nodes[lp := File([])];
    LockPathRoundTrip(targetPath);
    assert CopyReady(o, file, targetPath, w1);
    CalmLocked(o, kind, file, targetPath, Some(lp), w1);
    DeliveredAroundLock(kind, file, targetPath, lp, w.nodes);
  }

  /** A lock that was absent before and is deleted afterwards leaves no trace. */
  lemma DeliveredAroundLock(kind: Kind, file: Path, targetPath: Path, lp: Path, nodes: map<Path, Node>)
    requires file in nodes && nodes[file].File?
    requires lp !in nodes && lp != targetPath
    ensures Delivered(kind, file, targetPath, nodes[lp := File([])]) - {lp} == Delivered(kind, file, targetPath, nodes)
  {
    var n1 := nodes[lp := File([])];
    assert n1[file] == nodes[file];
    var a := Delivered(kind, file, targetPath, n1) - {lp};
    var b := Delivered(kind, file, targetPath, nodes);
    assert a.Keys == b.Keys;
    forall p | p in a.Keys ensures a[p] == b[p] { }
  }

  /** copyFile and moveFile in a calm world: the call returns true, the
      target holds the file's content, a move removes the source, and no
      lock file is left behind. */
  lemma CalmTransferred(o: VfsOperationOptions, kind: Kind, file: Path, dir: string, lockEnabled: bool,
                        t: TargetType, w: World)
    requires StreamSafe(o) && Calm(w) && CopyReady(o, file, TargetPath(o, dir, t, BaseName(file)), w)
    requires lockEnabled ==> LockFilePath(TargetPath(o, dir, t, BaseName(file))) !in w.nodes
    ensures Transferred(o, kind, file, dir, lockEnabled, t, w).1 == Ok(true)
    ensures Transferred(o, kind, file, dir, lockEnabled, t, w).0.nodes
            == Delivered(kind, file, TargetPath(o, dir, t, BaseName(file)), w.nodes)
    ensures lockEnabled ==>
              LockFilePath(TargetPath(o, dir, t, BaseName(file))) !in Transferred(o, kind, file, dir, lockEnabled, t, w).0.nodes
    ensures Calm(Transferred(o, kind, file, dir, lockEnabled, t, w).0)
  {
    var tp := TargetPath(o, dir, t, BaseName(file));
    if lockEnabled {
      CalmLockedTransfer(o, kind, file, tp, w);
      var w1 := LockCreated(o, tp, w).0;
      assert Transferred(o, kind, file, dir, lockEnabled, t, w) == Locked(o, kind, file, tp, Some(LockFilePath(tp)), w1);
      LockPathRoundTrip(tp);
    } else {
      CalmLocked(o, kind, file, tp, None, w);
      assert Transferred(o, kind, file, dir, lockEnabled, t, w) == Locked(o, kind, file, tp, None, w);
    }
  }

  /* ----- Listing and the checks before the loop. ----- */

  lemma ListOnceQuiet(dir: Path, pattern: JString, matches: (string, string) -> bool, w: World)
    ensures Quiet(w, StateOf(ListOnce(dir, pattern, matches)(w)))
    ensures ListOnce(dir, pattern, matches)(w).1.Success? ==>
              ListOnce(dir, pattern, matches)(w).1.value == Listing(w, dir, pattern, matches)
  {
    var w' := StateOf(ListOnce(dir, pattern, matches)(w));
    if w.faults != [] {
      assert w' == w.(faults := w.faults[1..]);
      assert w'.faults == w.faults[|w.faults| - |w'.faults|..];
    } else {
      assert w' == w;
    }
  }

  /** The retried listing returns the listing of the world it started in. */
  lemma RetriedListingQuiet(o: VfsOperationOptions, dir: Path, matches: (string, string) -> bool, w: World)
    ensures Quiet(w, WithRetry(o, ListOnce(dir, o.filePatternRegex, matches), w).0)
    ensures var r := WithRetry(o, ListOnce(dir, o.filePatternRegex, matches), w).1;
            r.Ok? && r.value.Some? ==> r.value.value == Listing(w, dir, o.filePatternRegex, matches)
  {
    var op := ListOnce(dir, o.filePatternRegex, matches);
    var inv := (x: World) => Quiet(w, x);
    var good := (es: seq<Path>) => es == Listing(w, dir, o.filePatternRegex, matches);
    forall x | inv(x) ensures inv(StateOf(op(x))) && (op(x).1.Success? ==> good(op(x).1.value)) {
      ListOnceQuiet(dir, o.filePatternRegex, matches, x);
      QuietTransitive(w, x, StateOf(op(x)));
      assert Listing(x, dir, o.filePatternRegex, matches) == Listing(w, dir, o.filePatternRegex, matches);
    }
    forall x | inv(x) ensures inv(StateOf(Sleep(o.retryWait)(x))) {
      SleepQuiet(o.retryWait, x);
      QuietTransitive(w, x, StateOf(Sleep(o.retryWait)(x)));
    }
    RetryReturnsGood(op, Catches, Sleep(o.retryWait), o.retryCount, 0, w, inv, good);
  }

  /** listFiles changes nothing; it throws unless the source is a folder,
      and an array it returns lists exactly the matching children. */
  lemma ListedEffect(o: VfsOperationOptions, matches: (string, string) -> bool, w: World)
    ensures Quiet(w, Listed(o, matches, w).0)
    ensures !(o.sourceDirectory.Str? && IsFolder(w, o.sourceDirectory.value)) ==> Listed(o, matches, w).1.Throws?
    ensures var r := Listed(o, matches, w).1;
            r.Ok? && r.value.Some? ==>
              o.sourceDirectory.Str? && r.value.value == Listing(w, o.sourceDirectory.value, o.filePatternRegex, matches)
              && SubseqOf(r.value.value, w.order) && (NoDup(w.order) ==> NoDup(r.value.value))
  {
    if o.sourceDirectory.Str? {
      ListingMembers(w, o.sourceDirectory.value, o.filePatternRegex, matches);
    }
    var r1 := Resolved(o, o.sourceDirectory, w);
    ResolvedQuiet(o, o.sourceDirectory, w);
    if r1.1.Ok? && r1.1.value.None? {
      assert Listed(o, matches, w) == (r1.0, Throws(NullPointerException));
    } else if r1.1.Ok? && FolderCheck(r1.1.value, r1.0).Ok? {
      var d := r1.1.value.value;
      RetriedListingQuiet(o, d, matches, r1.0);
      QuietTransitive(w, r1.0, WithRetry(o, ListOnce(d, o.filePatternRegex, matches), r1.0).0);
      assert Listed(o, matches, w) == WithRetry(o, ListOnce(d, o.filePatternRegex, matches), r1.0);
      assert Listing(r1.0, d, o.filePatternRegex, matches) == Listing(w, d, o.filePatternRegex, matches);
    }
  }

  /** Without createMissingDirectories, validateFolder only checks. */
  lemma ArchiveValidatedQuiet(o: VfsOperationOptions, w: World)
    requires !o.createMissingDirectories
    ensures Quiet(w, ArchiveValidated(o, w).0)
    ensures ArchiveValidated(o, w).1.Ok? ==> o.archiveDirectory.Null? || IsFolder(w, o.archiveDirectory.value)
  {
    if o.archiveDirectory.Str? {
      ResolvedQuiet(o, o.archiveDirectory, w);
    }
  }

  /** Without createMissingDirectories the preparation changes no node; it
      succeeds only when the target (and a set archive) is a folder, and
      then hands the listing of the source to the loop. A target that is
      not a folder fails before the archive and the source are looked at. */
  lemma PreparedChecksOnly(o: VfsOperationOptions, matches: (string, string) -> bool, w: World)
    requires !o.createMissingDirectories
    ensures Quiet(w, Prepared(o, matches, w).0)
    ensures Prepared(o, matches, w).1.Ok? ==>
              o.targetDirectory.Str? && IsFolder(w, o.targetDirectory.value)
              && (o.archiveDirectory.Str? ==> IsFolder(w, o.archiveDirectory.value))
              && o.sourceDirectory.Str?
              && Prepared(o, matches, w).1.value == Listing(w, o.sourceDirectory.value, o.filePatternRegex, matches)
  {
    var r1 := Resolved(o, o.targetDirectory, w);
    ResolvedQuiet(o, o.targetDirectory, w);
    if r1.1.Ok? && FolderCheck(r1.1.value, r1.0).Ok? {
      var w2 := r1.0;
      ArchiveValidatedQuiet(o, w2);
      var w3 := ArchiveValidated(o, w2).0;
      QuietTransitive(w, w2, w3);
      if ArchiveValidated(o, w2).1.Ok? {
        ListedEffect(o, matches, w3);
        QuietTransitive(w, w3, Listed(o, matches, w3).0);
        assert o.sourceDirectory.Str? ==>
          Listing(w3, o.sourceDirectory.value, o.filePatternRegex, matches)
          == Listing(w, o.sourceDirectory.value, o.filePatternRegex, matches);
      }
    }
  }

  /** validateFolder: a success leaves the handle naming a folder; only the
      folder's own path can change, and without createMissingDirectories
      nothing changes; a null handle throws NullPointerException. */
  lemma ValidatedFolderEffect(handle: Option<Path>, create: bool, w: World)
    ensures var v := ValidatedFolder(handle, create, w);
            (v.1.Ok? ==> handle.Some? && IsFolder(v.0, handle.value))
            && (handle.Some? ==> Evolves(w, v.0, {handle.value}))
            && (handle.None? ==> v == (w, Throws(NullPointerException)))
            && (!create ==> v.0 == w)
  {
    if create && handle.Some? {
      CreateFolderEvolves(w, handle.value);
    } else {
      assert w.faults[|w.faults| - |w.faults|..] == w.faults;
      assert w.interrupts[|w.interrupts| - |w.interrupts|..] == w.interrupts;
    }
  }

  /** validateFolder with createMissingDirectories on one path: in a calm
      world a path that is not a file ends up a folder and no other node
      changes; a file in the way makes the call throw without changing any
      node, with FolderCreation unless the backend call itself failed. */
  lemma CreatedFolder(p: Path, w: World)
    ensures var v := ValidatedFolder(Some(p), true, w);
            (Calm(w) && !IsFile(w, p) ==> v.1 == Ok(()) && v.0.nodes == w.nodes[p := Folder] && Calm(v.0))
            && (IsFolder(w, p) ==> Quiet(w, v.0))
            && (IsFile(w, p) ==>
                  v.1.Throws? && v.0.nodes == w.nodes
                  && (!NextFault(w).1 ==> v.1 == Throws(FileSystemException(FolderCreation(p)))))
  {
    var v := ValidatedFolder(Some(p), true, w);
    var w1 := NextFault(w).0;
    NextFaultConsumes(w);
    assert v == CreateFolderOnce(w, p);
    if IsFile(w, p) {
      assert !IsFolder(w1, p) && IsFile(w1, p);
      assert v.0 == w1;
    } else if IsFolder(w, p) {
      assert v.0 == w1;
      if Calm(w) {
        if w.faults != [] { assert !w.faults[0]; }
        assert w.nodes[p := Folder] == w.nodes;
        CalmStaysCalm(w, w1);
      }
    } else if Calm(w) {
      if w.faults != [] { assert !w.faults[0]; }
      assert !NextFault(w).1;
      assert v == (Put(w1, p, Folder), Ok(()));
      CalmStaysCalm(w, v.0);
    }
  }

  /** The archive directory, when one is set. */
  function ArchiveDirs(o: VfsOperationOptions): set<Path>
  {
    if o.archiveDirectory.Str? then {o.archiveDirectory.value} else {}
  }

  /** The paths the preparation may create. */
  function PreparedDirs(o: VfsOperationOptions): set<Path>
  {
    (if o.targetDirectory.Str? then {o.targetDirectory.value} else {}) + ArchiveDirs(o)
  }

  /** The archive check changes at most the archive directory, and a
      success leaves a set archive a folder. */
  lemma ArchiveValidatedEffect(o: VfsOperationOptions, w: World)
    ensures Evolves(w, ArchiveValidated(o, w).0, ArchiveDirs(o))
    ensures ArchiveValidated(o, w).1.Ok? ==>
              o.archiveDirectory.Null? || IsFolder(ArchiveValidated(o, w).0, o.archiveDirectory.value)
  {
    if o.archiveDirectory.Null? {
      SameNodesEvolve(w, w, {});
    } else {
      var r1 := Resolved(o, o.archiveDirectory, w);
      ResolvedQuiet(o, o.archiveDirectory, w);
      if r1.1.Throws? {
        QuietEvolves(w, r1.0, ArchiveDirs(o));
      } else {
        ValidatedFolderEffect(r1.1.value, o.createMissingDirectories, r1.0);
        if r1.1.value.Some? {
          QuietThenEvolves(w, r1.0, ArchiveValidated(o, w).0, ArchiveDirs(o));
        } else {
          QuietEvolves(w, r1.0, ArchiveDirs(o));
        }
      }
    }
  }

  /** The target check changes at most the target directory, and a success
      leaves the target a folder. */
  lemma TargetValidatedEffect(o: VfsOperationOptions, w: World)
    ensures var r1 := Resolved(o, o.targetDirectory, w);
            r1.1.Ok? ==>
              var v := ValidatedFolder(r1.1.value, o.createMissingDirectories, r1.0);
              Evolves(w, v.0, PreparedDirs(o))
              && (v.1.Ok? ==> o.targetDirectory.Str? && IsFolder(v.0, o.targetDirectory.value))
    ensures Quiet(w, Resolved(o, o.targetDirectory, w).0)
  {
    var r1 := Resolved(o, o.targetDirectory, w);
    ResolvedQuiet(o, o.targetDirectory, w);
    if r1.1.Ok? {
      var v := ValidatedFolder(r1.1.value, o.createMissingDirectories, r1.0);
      ValidatedFolderEffect(r1.1.value, o.createMissingDirectories, r1.0);
      if r1.1.value.Some? {
        QuietThenEvolves(w, r1.0, v.0, {o.targetDirectory.value});
        EvolvesWider(w, v.0, {o.targetDirectory.value}, PreparedDirs(o));
      } else {
        QuietEvolves(w, r1.0, PreparedDirs(o));
      }
    }
  }

  /** The preparation with or without createMissingDirectories: it changes
      at most the target and archive directories; a success leaves both
      folders and hands the loop the listing of the source in the world
      the preparation leaves behind. */
  lemma PreparedEffect(o: VfsOperationOptions, matches: (string, string) -> bool, w: World)
    ensures Evolves(w, Prepared(o, matches, w).0, PreparedDirs(o))
    ensures var p := Prepared(o, matches, w);
            p.1.Ok? ==>
              o.targetDirectory.Str? && IsFolder(p.0, o.targetDirectory.value)
              && (o.archiveDirectory.Str? ==> IsFolder(p.0, o.archiveDirectory.value))
              && o.sourceDirectory.Str?
              && p.1.value == Listing(p.0, o.sourceDirectory.value, o.filePatternRegex, matches)
  {
    var r1 := Resolved(o, o.targetDirectory, w);
    TargetValidatedEffect(o, w);
    if r1.1.Throws? {
      QuietEvolves(w, r1.0, PreparedDirs(o));
    } else {
      var v := ValidatedFolder(r1.1.value, o.createMissingDirectories, r1.0);
      if v.1.Ok? {
        var w2 := v.0;
        var a := ArchiveValidated(o, w2);
        ArchiveValidatedEffect(o, w2);
        EvolvesTransitive(w, w2, a.0, PreparedDirs(o), ArchiveDirs(o));
        assert PreparedDirs(o) + ArchiveDirs(o) == PreparedDirs(o);
        if a.1.Ok? {
          assert IsFolder(a.0, o.targetDirectory.value) by {
            if o.targetDirectory.value !in ArchiveDirs(o) {
              assert SameAt(w2, a.0, o.targetDirectory.value);
            }
          }
          var l := Listed(o, matches, a.0);
          ListedEffect(o, matches, a.0);
          QuietEvolves(a.0, l.0, {});
          EvolvesTransitive(w, a.0, l.0, PreparedDirs(o), {});
          assert PreparedDirs(o) + {} == PreparedDirs(o);
          if l.1.Ok? && l.1.value.Some? {
            assert Listing(a.0, o.sourceDirectory.value, o.filePatternRegex, matches)
                == Listing(l.0, o.sourceDirectory.value, o.filePatternRegex, matches);
          }
        }
      }
    }
  }

  /** In a calm world a source folder is listed at the first call. */
  lemma CalmListed(o: VfsOperationOptions, matches: (string, string) -> bool, w: World)
    requires Calm(w) && o.sourceDirectory.Str? && IsFolder(w, o.sourceDirectory.value)
    ensures Listed(o, matches, w).1 == Ok(Some(Listing(w, o.sourceDirectory.value, o.filePatternRegex, matches)))
    ensures Quiet(w, Listed(o, matches, w).0) && Calm(Listed(o, matches, w).0)
  {
    var src := o.sourceDirectory.value;
    CalmResolved(o, src, w);
    ResolvedQuiet(o, o.sourceDirectory, w);
    var w1 := Resolved(o, o.sourceDirectory, w).0;
    CalmPrimitives(w1, "", src, o.filePatternRegex, matches, "", "");
    RetriedListingQuiet(o, src, matches, w1);
    assert Listed(o, matches, w) == WithRetry(o, ListOnce(src, o.filePatternRegex, matches), w1);
    ListedEffect(o, matches, w);
    CalmStaysCalm(w, Listed(o, matches, w).0);
  }

  /** In a calm world an existing folder passes validateFolder unchanged. */
  lemma CalmFolderReady(p: Path, create: bool, w: World)
    requires Calm(w) && IsFolder(w, p)
    ensures ValidatedFolder(Some(p), create, w).1 == Ok(())
    ensures Quiet(w, ValidatedFolder(Some(p), create, w).0) && Calm(ValidatedFolder(Some(p), create, w).0)
  {
    if create {
      CreatedFolder(p, w);
    }
    CalmStaysCalm(w, ValidatedFolder(Some(p), create, w).0);
  }

  /** Resolving a folder and validating it, in a calm world. */
  lemma CalmResolvedFolder(o: VfsOperationOptions, dir: JString, w: World)
    requires Calm(w) && dir.Str? && IsFolder(w, dir.value)
    ensures var r := Resolved(o, dir, w);
            r.1 == Ok(Some(dir.value))
            && ValidatedFolder(r.1.value, o.createMissingDirectories, r.0).1 == Ok(())
            && Quiet(w, ValidatedFolder(r.1.value, o.createMissingDirectories, r.0).0)
            && Calm(ValidatedFolder(r.1.value, o.createMissingDirectories, r.0).0)
  {
    CalmResolved(o, dir.value, w);
    ResolvedQuiet(o, dir, w);
    var r := Resolved(o, dir, w);
    CalmFolderReady(dir.value, o.createMissingDirectories, r.0);
    QuietTransitive(w, r.0, ValidatedFolder(r.1.value, o.createMissingDirectories, r.0).0);
  }

  /** In a calm world whose target, archive and source are folders already,
      the preparation changes nothing, with or without
      createMissingDirectories, and hands the listing of the source on. */
  lemma CalmPreparedReady(o: VfsOperationOptions, matches: (string, string) -> bool, w: World)
    requires Calm(w)
    requires o.targetDirectory.Str? && IsFolder(w, o.targetDirectory.value)
    requires o.archiveDirectory.Str? ==> IsFolder(w, o.archiveDirectory.value)
    requires o.sourceDirectory.Str? && IsFolder(w, o.sourceDirectory.value)
    ensures Prepared(o, matches, w).1 == Ok(Listing(w, o.sourceDirectory.value, o.filePatternRegex, matches))
    ensures Quiet(w, Prepared(o, matches, w).0) && Calm(Prepared(o, matches, w).0)
  {
    CalmResolvedFolder(o, o.targetDirectory, w);
    var r1 := Resolved(o, o.targetDirectory, w);
    var v := ValidatedFolder(r1.1.value, o.createMissingDirectories, r1.0);
    var a := ArchiveValidated(o, v.0);
    if o.archiveDirectory.Str? {
      CalmResolvedFolder(o, o.archiveDirectory, v.0);
      QuietTransitive(w, v.0, a.0);
    }
    assert a.1 == Ok(()) && Quiet(w, a.0) && Calm(a.0);
    var l := Listed(o, matches, a.0);
    CalmListed(o, matches, a.0);
    QuietTransitive(w, a.0, l.0);
    assert Listing(a.0, o.sourceDirectory.value, o.filePatternRegex, matches)
        == Listing(w, o.sourceDirectory.value, o.filePatternRegex, matches);
    assert Prepared(o, matches, w) == (l.0, Ok(l.1.value.value));
  }

  /** The nodes once the preparation has created the target and a set archive. */
  function WithDirs(o: VfsOperationOptions, nodes: map<Path, Node>): map<Path, Node>
  {
    var n1 := if o.targetDirectory.Str? then nodes[o.targetDirectory.value := Folder] else nodes;
    if o.archiveDirectory.Str? then n1[o.archiveDirectory.value := Folder] else n1
  }

  /** With createMissingDirectories in a calm world, a target and an archive
      that are not files become folders, no other node changes, and the loop
      receives the listing of the source. */
  lemma CalmPreparedCreates(o: VfsOperationOptions, matches: (string, string) -> bool, w: World)
    requires Calm(w) && o.createMissingDirectories
    requires o.targetDirectory.Str? && !IsFile(w, o.targetDirectory.value)
    requires o.archiveDirectory.Str? ==> !IsFile(w, o.archiveDirectory.value)
    requires o.sourceDirectory.Str? && IsFolder(w, o.sourceDirectory.value)
    ensures var p := Prepared(o, matches, w);
            p.1 == Ok(Listing(p.0, o.sourceDirectory.value, o.filePatternRegex, matches))
            && p.0.nodes == WithDirs(o, w.nodes) && Calm(p.0)
  {
    var r := Resolved(o, o.targetDirectory, w);
    CalmResolvedCreated(o, o.targetDirectory, w);
    var v := ValidatedFolder(r.1.value, true, r.0);
    CalmArchiveCreated(o, v.0);
    var a := ArchiveValidated(o, v.0);
    assert a.0.nodes == WithDirs(o, w.nodes);
    assert IsFolder(a.0, o.sourceDirectory.value);
    CalmListed(o, matches, a.0);
    assert Listing(a.0, o.sourceDirectory.value, o.filePatternRegex, matches)
        == Listing(Listed(o, matches, a.0).0, o.sourceDirectory.value, o.filePatternRegex, matches);
  }

  /** Resolving a directory that is not a file and creating it, in a calm world. */
  lemma CalmResolvedCreated(o: VfsOperationOptions, dir: JString, w: World)
    requires Calm(w) && o.createMissingDirectories && dir.Str? && !IsFile(w, dir.value)
    ensures var r := Resolved(o, dir, w);
            var v := ValidatedFolder(r.1.value, true, r.0);
            r.1 == Ok(Some(dir.value)) && v.1 == Ok(()) && v.0.nodes == w.nodes[dir.value := Folder] && Calm(v.0)
  {
    CalmResolved(o, dir.value, w);
    ResolvedQuiet(o, dir, w);
    var r := Resolved(o, dir, w);
    CreatedFolder(dir.value, r.0);
  }

  /** The archive check with createMissingDirectories in a calm world: a set
      archive that is not a file becomes a folder, and nothing else changes. */
  lemma CalmArchiveCreated(o: VfsOperationOptions, w: World)
    requires Calm(w) && o.createMissingDirectories
    requires o.archiveDirectory.Str? ==> !IsFile(w, o.archiveDirectory.value)
    ensures var a := ArchiveValidated(o, w);
            a.1 == Ok(()) && Calm(a.0)
            && a.0.nodes == (if o.archiveDirectory.Str? then w.nodes[o.archiveDirectory.value := Folder] else w.nodes)
  {
    if o.archiveDirectory.Str? {
      CalmResolvedCreated(o, o.archiveDirectory, w);
    }
  }

  /** A missing target directory without createMissingDirectories: the
      batch fails with NotAFolder before anything is listed or copied. */
  lemma MissingTargetFailsFirst(o: VfsOperationOptions, kind: Kind, matches: (string, string) -> bool, w: World)
    requires StreamSafe(o) && Calm(w) && !o.createMissingDirectories
    requires o.targetDirectory.Str? && !IsFolder(w, o.targetDirectory.value)
    ensures Operated(o, kind, matches, w).1 == Throws(FileSystemException(NotAFolder(o.targetDirectory.value)))
    ensures Operated(o, kind, matches, w).0.nodes == w.nodes
  {
    CalmResolved(o, o.targetDirectory.value, w);
    ResolvedQuiet(o, o.targetDirectory, w);
  }

  /* ----- The loop. ----- */

  /** An entry that is not a file is skipped: nothing happens and it does not count. */
  lemma NonFileSkipped(o: VfsOperationOptions, kind: Kind, file: Path, w: World)
    requires StreamSafe(o) && !IsFile(w, file)
    ensures Entry(o, kind, file, w) == (w, Ok(false))
  {
  }

  /** The counter grows by at most one per entry. */
  lemma {:induction false} ProcessedCountBounded(o: VfsOperationOptions, kind: Kind, entries: seq<Path>, count: int, w: World)
    requires StreamSafe(o)
    ensures var r := Processed(o, kind, entries, count, w).1;
            r.Ok? ==> count <= r.value <= count + |entries|
    decreases |entries|
  {
    if entries != [] {
      var e := Entry(o, kind, entries[0], w);
      if e.1.Ok? {
        ProcessedCountBounded(o, kind, entries[1..], if e.1.value then count + 1 else count, e.0);
      }
    }
  }

  /** The loop over es + rest is the loop over es, then, unless it threw,
      the loop over rest with the count reached so far. */
  lemma {:induction false} ProcessedAppend(o: VfsOperationOptions, kind: Kind, es: seq<Path>, rest: seq<Path>,
                                           count: int, w: World)
    requires StreamSafe(o)
    ensures var first := Processed(o, kind, es, count, w);
            Processed(o, kind, es + rest, count, w)
            == if first.1.Throws? then first else Processed(o, kind, rest, first.1.value, first.0)
    decreases |es|
  {
    if es == [] {
      assert es + rest == rest;
    } else {
      assert (es + rest)[0] == es[0];
      assert (es + rest)[1..] == es[1..] + rest;
      var e := Entry(o, kind, es[0], w);
      if e.1.Ok? {
        ProcessedAppend(o, kind, es[1..], rest, if e.1.value then count + 1 else count, e.0);
      }
    }
  }

  /** An exception ends the batch: the entries after it are never reached. */
  lemma AbortIgnoresRest(o: VfsOperationOptions, kind: Kind, es: seq<Path>, rest: seq<Path>, count: int, w: World)
    requires StreamSafe(o)
    requires Processed(o, kind, es, count, w).1.Throws?
    ensures Processed(o, kind, es + rest, count, w) == Processed(o, kind, es, count, w)
  {
    ProcessedAppend(o, kind, es, rest, count, w);
  }

  /** A batch without files changes nothing and counts nothing. */
  lemma {:induction false} NoFilesNoChange(o: VfsOperationOptions, kind: Kind, entries: seq<Path>, count: int, w: World)
    requires StreamSafe(o)
    requires forall i :: 0 <= i < |entries| ==> !IsFile(w, entries[i])
    ensures Processed(o, kind, entries, count, w) == (w, Ok(count))
    decreases |entries|
  {
    if entries != [] {
      NonFileSkipped(o, kind, entries[0], w);
      assert forall i :: 0 <= i < |entries[1..]| ==> !IsFile(w, entries[1..][i]) by {
        forall i | 0 <= i < |entries[1..]| ensures !IsFile(w, entries[1..][i]) {
          assert entries[1..][i] == entries[i + 1];
        }
      }
      NoFilesNoChange(o, kind, entries[1..], count, w);
    }
  }

  /** doOperation returns a count between zero and the number of listed entries. */
  lemma OperatedBounded(o: VfsOperationOptions, kind: Kind, matches: (string, string) -> bool, w: World)
    requires StreamSafe(o)
    ensures var r := Operated(o, kind, matches, w).1;
            r.Ok? ==> Prepared(o, matches, w).1.Ok? && 0 <= r.value <= |Prepared(o, matches, w).1.value|
  {
    var p := Prepared(o, matches, w);
    if p.1.Ok? {
      ProcessedCountBounded(o, kind, p.1.value, 0, p.0);
    }
  }

  /** A copy whose first call fails and whose retry wait is interrupted
      hands null back to moveFile without an exception. */
  lemma InterruptedCopy(o: VfsOperationOptions, file: Path, targetPath: Path, w: World)
    requires o.retryCount >= 1 && o.retryWait >= 0
    requires w.faults == [true, false] && w.interrupts == [true]
    ensures WithRetry(o, CopyOnce(file, Some(targetPath)), w) == (w.(faults := [false], interrupts := []), Ok(None))
  {
    var w2 := w.(faults := [false]);
    assert CopyOnce(file, Some(targetPath))(w) == (w2, Failure(FileSystemException(BackendFailure)));
    var w3 := w2.(interrupts := []);
    assert Sleep(o.retryWait)(w2) == (w3, Interrupted);
    assert Retry(CopyOnce(file, Some(targetPath)), Catches, Sleep(o.retryWait), o.retryCount, w)
           == Run(w3, ReturnedNull, 1);
  }

  /** A move whose copy is cut short by an interrupted retry wait still
      deletes the source and reports success: the file is then neither at
      the source nor at the target. */
  lemma MoveLosesFileOnInterrupt(o: VfsOperationOptions, file: Path, w: World)
    requires !o.streamingTransfer && o.retryCount >= 1 && o.retryWait >= 0
    requires IsFile(w, file) && TargetPath(o, Text(o.targetDirectory), Target, BaseName(file)) !in w.nodes
    requires w.faults == [false, true, false] && w.interrupts == [true]
    ensures Transferred(o, Move, file, Text(o.targetDirectory), false, Target, w).1 == Ok(true)
    ensures file !in Transferred(o, Move, file, Text(o.targetDirectory), false, Target, w).0.nodes
    ensures TargetPath(o, Text(o.targetDirectory), Target, BaseName(file))
            !in Transferred(o, Move, file, Text(o.targetDirectory), false, Target, w).0.nodes
  {
    var tp := TargetPath(o, Text(o.targetDirectory), Target, BaseName(file));
    var w1 := w.(faults := [true, false]);
    assert ResolveOnce(Str(tp))(w) == (w1, Success(tp));
    assert Resolved(o, Str(tp), w) == (w1, Ok(Some(tp)));
    InterruptedCopy(o, file, tp, w1);
    var w3 := w1.(faults := [false], interrupts := []);
    assert CopyStep(o, file, tp, Some(tp), w1) == (w3, Ok(()));
    var w4 := Remove(w3.(faults := []), file);
    assert DeleteOnce(w3, file) == (w4, Ok(()));
    assert Body(o, Move, file, tp, Some(tp), w1) == (w4, Ok(()));
    assert Locked(o, Move, file, tp, None, w) == (w4, Ok(true));
    assert Transferred(o, Move, file, Text(o.targetDirectory), false, Target, w) == Locked(o, Move, file, tp, None, w);
  }

  /* ----- The lock protocol within a transfer. ----- */

  /** A lock file already in place stops the transfer with an exception
      before any node changes. */
  lemma HeldLockBlocks(o: VfsOperationOptions, kind: Kind, file: Path, dir: string, t: TargetType, w: World)
    requires StreamSafe(o) && IsFile(w, file)
    requires LockFilePath(TargetPath(o, dir, t, BaseName(file))) in w.nodes
    ensures Transferred(o, kind, file, dir, true, t, w).1.Throws?
    ensures Transferred(o, kind, file, dir, true, t, w).0.nodes == w.nodes
  {
    LockCreatedEffect(o, TargetPath(o, dir, t, BaseName(file)), w);
  }

  /** newLocation is resolved after the lock is created but outside the
      try-block: when that resolve throws, the lock file stays behind. */
  lemma LockLeaksWhenTargetUnresolved(o: VfsOperationOptions, kind: Kind, file: Path, dir: string,
                                      t: TargetType, w: World)
    requires StreamSafe(o) && IsFile(w, file)
    requires var tp := TargetPath(o, dir, t, BaseName(file));
             LockCreated(o, tp, w).1.Ok? && Resolved(o, Str(tp), LockCreated(o, tp, w).0).1.Throws?
    ensures Transferred(o, kind, file, dir, true, t, w).1.Throws?
    ensures LockFilePath(TargetPath(o, dir, t, BaseName(file))) in Transferred(o, kind, file, dir, true, t, w).0.nodes
  {
    var tp := TargetPath(o, dir, t, BaseName(file));
    LockCreatedEffect(o, tp, w);
    var w1 := LockCreated(o, tp, w).0;
    ResolvedQuiet(o, Str(tp), w1);
    assert Transferred(o, kind, file, dir, true, t, w) == Locked(o, kind, file, tp, Some(LockFilePath(tp)), w1);
  }

  /** An exception from deleting the lock in the finally-block replaces
      the outcome of the try-block, a successful one included. */
  lemma ReleaseFailureWins(o: VfsOperationOptions, lockPath: Path, body: Result<()>, w: World)
    requires LockDeleted(o, lockPath, w).1.Throws?
    ensures Released(o, Some(lockPath), body, w).1 == Throws(LockDeleted(o, lockPath, w).1.error)
  {
  }

  /* ----- The methods, one statement of the source at a time. ----- */

  /** An anonymous Retrier around `op`, run with the configured retryCount and retryWait. */
  method RetryCall<T>(o: VfsOperationOptions, op: World -> (World, Attempt<T, Exception>), w0: World)
    returns (w: World, r: Result<Option<T>>)
    ensures (w, r) == WithRetry(o, op, w0)
  {
    var s, ret, calls := DoWithRetry(op, Catches, Sleep(o.retryWait), o.retryCount, w0);
    w, r := s, Outcome(ret);
  }

  /** resolveFile(manager, path). */
  method ResolveFile(o: VfsOperationOptions, path: JString, w0: World) returns (w: World, handle: Result<Option<Path>>)
    ensures (w, handle) == Resolved(o, path, w0)
  {
    w, handle := RetryCall(o, ResolveOnce(path), w0);
  }

  /** listFiles(manager, sourceDirectory, filePatternRegex). */
  method ListFiles(o: VfsOperationOptions, matches: (string, string) -> bool, w0: World)
    returns (w: World, fileList: Result<Option<seq<Path>>>)
    ensures (w, fileList) == Listed(o, matches, w0)
  {
    var fromDirectory;
    w, fromDirectory := ResolveFile(o, o.sourceDirectory, w0);
    if fromDirectory.Throws? {
      return w, Throws(fromDirectory.error);
    }
    var check := FolderCheck(fromDirectory.value, w);
    if check.Throws? {
      return w, Throws(check.error);
    }
    w, fileList := RetryCall(o, ListOnce(fromDirectory.value.value, o.filePatternRegex, matches), w);
  }

  /** createLockFile(manager, targetPath). */
  method CreateLockFile(o: VfsOperationOptions, targetPath: Path, w0: World) returns (w: World, lockPath: Result<Path>)
    ensures (w, lockPath) == LockCreated(o, targetPath, w0)
  {
    var lockFile;
    w, lockFile := ResolveFile(o, Str(LockFilePath(targetPath)), w0);
    if lockFile.Throws? {
      return w, Throws(lockFile.error);
    }
    if lockFile.value.None? {
      return w, Throws(NullPointerException);
    }
    var p := lockFile.value.value;
    if p in w.nodes {
      return w, Throws(FileSystemException(LockFileExists(p)));
    }
    var created := CreateFileOnce(w, p).1;
    w := CreateFileOnce(w, p).0;
    lockPath := if created.Throws? then Throws(created.error) else Ok(p);
  }

  /** deleteLockFile(manager, lockFilePath). */
  method DeleteLockFile(o: VfsOperationOptions, lockPath: Path, w0: World) returns (w: World, r: Result<()>)
    ensures (w, r) == LockDeleted(o, lockPath, w0)
  {
    var ret;
    w, ret := RetryCall(o, DeleteAttempt(o, lockPath), w0);
    r := if ret.Throws? then Throws(ret.error) else Ok(());
  }

  /** The copy statement of the try-block. */
  method CopyContent(o: VfsOperationOptions, file: Path, targetPath: Path, newLocation: Option<Path>, w0: World)
    returns (w: World, r: Result<()>)
    requires StreamSafe(o)
    ensures (w, r) == CopyStep(o, file, targetPath, newLocation, w0)
  {
    if o.streamingTransfer {
      var out;
      w, out := ResolveFile(o, Str(targetPath), w0);
      if out.Throws? {
        return w, Throws(out.error);
      }
      w, r := StreamFromFileToFile(o.streamingBlockSize, file, out.value, w);
    } else {
      var copied;
      w, copied := RetryCall(o, CopyOnce(file, newLocation), w0);
      r := if copied.Throws? then Throws(copied.error) else Ok(());
    }
  }

  /** The try-block: copy, newLocation.close(), and file.delete() for a move. */
  method TryBlock(o: VfsOperationOptions, kind: Kind, file: Path, targetPath: Path, newLocation: Option<Path>, w0: World)
    returns (w: World, r: Result<()>)
    requires StreamSafe(o)
    ensures (w, r) == Body(o, kind, file, targetPath, newLocation, w0)
  {
    w, r := CopyContent(o, file, targetPath, newLocation, w0);
    if r.Throws? {
      return;
    }
    if newLocation.None? {
      return w, Throws(NullPointerException);
    }
    if kind == Move {
      w, r := DeleteOnce(w, file).0, DeleteOnce(w, file).1;
    }
  }

  /** From the resolve of newLocation to the end of the finally-block. */
  method AfterLock(o: VfsOperationOptions, kind: Kind, file: Path, targetPath: Path, lockFilePath: Option<Path>, w0: World)
    returns (w: World, r: Result<bool>)
    requires StreamSafe(o)
    ensures (w, r) == Locked(o, kind, file, targetPath, lockFilePath, w0)
  {
    var newLocation;
    w, newLocation := ResolveFile(o, Str(targetPath), w0);
    if newLocation.Throws? {
      return w, Throws(newLocation.error);
    }
    var body;
    w, body := TryBlock(o, kind, file, targetPath, newLocation.value, w);
    if lockFilePath.Some? {
      var deleted;
      w, deleted := DeleteLockFile(o, lockFilePath.value, w);
      if deleted.Throws? {
        return w, Throws(deleted.error);
      }
    }
    r := if body.Throws? then Throws(body.error) else Ok(true);
  }

  /** The common body of copyFile (kind Copy) and moveFile (kind Move). */
  method TransferFile(o: VfsOperationOptions, kind: Kind, file: Path, dir: string, lockEnabled: bool,
                      t: TargetType, w0: World) returns (w: World, r: Result<bool>)
    requires StreamSafe(o)
    ensures (w, r) == Transferred(o, kind, file, dir, lockEnabled, t, w0)
  {
    if !IsFile(w0, file) {
      return w0, Ok(false);
    }
    var targetPath := TargetPath(o, dir, t, BaseName(file));
    if lockEnabled {
      var created;
      w, created := CreateLockFile(o, targetPath, w0);
      if created.Throws? {
        return w, Throws(created.error);
      }
      w, r := AfterLock(o, kind, file, targetPath, Some(created.value), w);
    } else {
      w, r := AfterLock(o, kind, file, targetPath, None, w0);
    }
  }

  /** copyFile(manager, file, targetDirectoryPath, lockEnabled, targetType). */
  method CopyFile(o: VfsOperationOptions, file: Path, dir: string, lockEnabled: bool, t: TargetType, w0: World)
    returns (w: World, r: Result<bool>)
    requires StreamSafe(o)
    ensures (w, r) == Transferred(o, Copy, file, dir, lockEnabled, t, w0)
  {
    w, r := TransferFile(o, Copy, file, dir, lockEnabled, t, w0);
  }

  /** moveFile(manager, file, toDirectoryPath, lockEnabled): always the target pair. */
  method MoveFile(o: VfsOperationOptions, file: Path, dir: string, lockEnabled: bool, w0: World)
    returns (w: World, r: Result<bool>)
    requires StreamSafe(o)
    ensures (w, r) == Transferred(o, Move, file, dir, lockEnabled, Target, w0)
  {
    w, r := TransferFile(o, Move, file, dir, lockEnabled, Target, w0);
  }

  /** The archive directory check of doOperation. */
  method ValidateArchive(o: VfsOperationOptions, w0: World) returns (w: World, r: Result<()>)
    ensures (w, r) == ArchiveValidated(o, w0)
  {
    if o.archiveDirectory.Null? {
      return w0, Ok(());
    }
    var archiveDir;
    w, archiveDir := ResolveFile(o, o.archiveDirectory, w0);
    if archiveDir.Throws? {
      return w, Throws(archiveDir.error);
    }
    w, r := ValidatedFolder(archiveDir.value, o.createMissingDirectories, w).0,
            ValidatedFolder(archiveDir.value, o.createMissingDirectories, w).1;
  }

  /** The statements of doOperation before its loop. */
  method Prepare(o: VfsOperationOptions, matches: (string, string) -> bool, w0: World)
    returns (w: World, r: Result<seq<Path>>)
    ensures (w, r) == Prepared(o, matches, w0)
  {
    var toDirectory;
    w, toDirectory := ResolveFile(o, o.targetDirectory, w0);
    if toDirectory.Throws? {
      return w, Throws(toDirectory.error);
    }
    var validated;
    w, validated := ValidatedFolder(toDirectory.value, o.createMissingDirectories, w).0,
                    ValidatedFolder(toDirectory.value, o.createMissingDirectories, w).1;
    if validated.Throws? {
      return w, Throws(validated.error);
    }
    var archived;
    w, archived := ValidateArchive(o, w);
    if archived.Throws? {
      return w, Throws(archived.error);
    }
    var children;
    w, children := ListFiles(o, matches, w);
    if children.Throws? {
      return w, Throws(children.error);
    }
    if children.value.None? {
      return w, Throws(NullPointerException);
    }
    r := Ok(children.value.value);
  }

  /** One round of the loop: the archive copy, then the move or the copy. */
  method ProcessEntry(o: VfsOperationOptions, kind: Kind, file: Path, w0: World) returns (w: World, r: Result<bool>)
    requires StreamSafe(o)
    ensures (w, r) == Entry(o, kind, file, w0)
  {
    w := w0;
    if o.archiveDirectory.Str? {
      var archived;
      w, archived := CopyFile(o, file, o.archiveDirectory.value, o.lockEnabled, Archive, w);
      if archived.Throws? {
        return w, Throws(archived.error);
      }
    }
    if kind == Move {
      w, r := MoveFile(o, file, Text(o.targetDirectory), o.lockEnabled, w);
    } else {
      w, r := CopyFile(o, file, Text(o.targetDirectory), o.lockEnabled, Target, w);
    }
  }

  /** doOperation(operation): the checks, the listing, then the loop with
      its counter fileProcessed. */
  method DoOperation(o: VfsOperationOptions, kind: Kind, matches: (string, string) -> bool, w0: World)
    returns (w: World, r: Result<int>)
    requires StreamSafe(o)
    ensures (w, r) == Operated(o, kind, matches, w0)
  {
    var prepared;
    w, prepared := Prepare(o, matches, w0);
    if prepared.Throws? {
      return w, Throws(prepared.error);
    }
    var children := prepared.value;
    var fileProcessed := 0;
    var i := 0;
    while i < |children|
      invariant 0 <= i <= |children|
      invariant Processed(o, kind, children[i..], fileProcessed, w) == Operated(o, kind, matches, w0)
    {
      assert children[i..][0] == children[i] && children[i..][1..] == children[i + 1..];
      var done;
      w, done := ProcessEntry(o, kind, children[i], w);
      if done.Throws? {
        return w, Throws(done.error);
      }
      if done.value {
        fileProcessed := fileProcessed + 1;
      }
      i := i + 1;
    }
    assert children[i..] == [];
    r := Ok(fileProcessed);
  }
}
