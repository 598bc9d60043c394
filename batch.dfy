/** The loop of doOperation as a whole: in a calm world every listed file is
    delivered, archive copy first, and counted; in any world the batch
    touches only the entries, their destinations and their lock files. */
module Batch {
  import opened Java
  import opened Backend
  import opened Options
  import opened Naming
  import opened Streaming
  import opened Transfer

  /** Where the primary copy or move of entry e goes. */
  function TargetOf(o: VfsOperationOptions, e: Path): Path
  {
    TargetPath(o, Text(o.targetDirectory), Target, BaseName(e))
  }

  /** Where the archive copy of entry e goes. */
  function ArchiveOf(o: VfsOperationOptions, e: Path): Path
    requires o.archiveDirectory.Str?
  {
    TargetPath(o, o.archiveDirectory.value, Archive, BaseName(e))
  }

  /** The destinations of entry e: the target and, when set, the archive. */
  function Dests(o: VfsOperationOptions, e: Path): set<Path>
  {
    {TargetOf(o, e)} + (if o.archiveDirectory.Str? then {ArchiveOf(o, e)} else {})
  }

  /** The nodes after a round that delivered entry e: the archive copy when
      an archive directory is set, then the copy or move to the target. */
  function EntryNodes(o: VfsOperationOptions, kind: Kind, e: Path, nodes: map<Path, Node>): map<Path, Node>
    requires e in nodes && nodes[e].File?
  {
    var archived := if o.archiveDirectory.Str? then Delivered(Copy, e, ArchiveOf(o, e), nodes) else nodes;
    assert e in archived && archived[e].File?;
    Delivered(kind, e, TargetOf(o, e), archived)
  }

  /** The nodes after the whole batch, entry by entry; an entry that is no
      longer a file when its turn comes is skipped. */
  function BatchNodes(o: VfsOperationOptions, kind: Kind, entries: seq<Path>, nodes: map<Path, Node>)
    : map<Path, Node>
    decreases |entries|
  {
    if entries == [] then nodes
    else
      var e := entries[0];
      BatchNodes(o, kind, entries[1..], if e in nodes && nodes[e].File? then EntryNodes(o, kind, e, nodes) else nodes)
  }

  /** No lock file of d is present, and no lock path of d is a destination. */
  predicate LockFree(o: VfsOperationOptions, entries: seq<Path>, d: Path, nodes: map<Path, Node>)
  {
    LockFilePath(d) !in nodes && forall e :: e in entries ==> LockFilePath(d) !in Dests(o, e)
  }

  predicate AllFiles(entries: seq<Path>, nodes: map<Path, Node>)
  {
    forall e :: e in entries ==> e in nodes && nodes[e].File?
  }

  /** No entry is the destination of any entry. */
  predicate ApartFromDests(o: VfsOperationOptions, entries: seq<Path>)
  {
    forall e, e' :: e in entries && e' in entries ==> e !in Dests(o, e')
  }

  predicate NoFolderInWay(o: VfsOperationOptions, entries: seq<Path>, nodes: map<Path, Node>)
  {
    forall e, d :: e in entries && d in Dests(o, e) ==> !(d in nodes && nodes[d].Folder?)
  }

  predicate NoLockInWay(o: VfsOperationOptions, entries: seq<Path>, nodes: map<Path, Node>)
  {
    forall e, d :: e in entries && d in Dests(o, e) ==> LockFree(o, entries, d, nodes)
  }

  /** What lets every round of a calm batch succeed: every entry is a file,
      no destination is an entry, a move meets every entry once, a streamed
      copy has a block size it can parse and no destination folder, and
      with locking on no lock file is in the way. */
  predicate BatchSafe(o: VfsOperationOptions, kind: Kind, entries: seq<Path>, nodes: map<Path, Node>)
  {
    && Apart(o, kind, entries, nodes)
    && (o.streamingTransfer ==> BufferLength(o.streamingBlockSize).Ok? && NoFolderInWay(o, entries, nodes))
    && (o.lockEnabled ==> NoLockInWay(o, entries, nodes))
  }

  /** Every entry is a file, no entry is a destination, and a move meets
      every entry once. */
  predicate Apart(o: VfsOperationOptions, kind: Kind, entries: seq<Path>, nodes: map<Path, Node>)
  {
    && AllFiles(entries, nodes)
    && ApartFromDests(o, entries)
    && (kind == Move ==> NoDup(entries))
  }

  /** Nothing is in the way of delivering entry e to d: no folder for a
      streamed copy and, with locking on, no lock file of d, whose path is
      no destination of e either. */
  predicate Clear(o: VfsOperationOptions, e: Path, d: Path, nodes: map<Path, Node>)
  {
    && (o.streamingTransfer ==> !(d in nodes && nodes[d].Folder?))
    && (o.lockEnabled ==> LockFilePath(d) !in nodes && LockFilePath(d) !in Dests(o, e))
  }

  /** What one calm round needs of its entry and the nodes it meets. */
  predicate EntryReady(o: VfsOperationOptions, e: Path, nodes: map<Path, Node>)
  {
    && e in nodes && nodes[e].File?
    && e !in Dests(o, e)
    && (o.streamingTransfer ==> BufferLength(o.streamingBlockSize).Ok?)
    && Clear(o, e, TargetOf(o, e), nodes)
    && (o.archiveDirectory.Str? ==> Clear(o, e, ArchiveOf(o, e), nodes))
  }

  /** Every entry is ready when its turn comes, in the nodes the earlier
      rounds left behind. */
  predicate Deliverable(o: VfsOperationOptions, kind: Kind, entries: seq<Path>, nodes: map<Path, Node>)
    decreases |entries|
  {
    entries == []
    || (EntryReady(o, entries[0], nodes)
        && Deliverable(o, kind, entries[1..], EntryNodes(o, kind, entries[0], nodes)))
  }

  /** The first entry of a safe batch is ready. */
  lemma BatchHeadReady(o: VfsOperationOptions, kind: Kind, entries: seq<Path>, nodes: map<Path, Node>)
    requires entries != [] && BatchSafe(o, kind, entries, nodes)
    ensures EntryReady(o, entries[0], nodes)
  {
    var e := entries[0];
    assert e in entries;
    assert TargetOf(o, e) in Dests(o, e);
    if o.lockEnabled {
      assert LockFree(o, entries, TargetOf(o, e), nodes);
    }
    if o.archiveDirectory.Str? {
      assert ArchiveOf(o, e) in Dests(o, e);
      if o.lockEnabled {
        assert LockFree(o, entries, ArchiveOf(o, e), nodes);
      }
    }
  }

  /** A safe batch is deliverable. */
  lemma {:induction false} SafeIsDeliverable(o: VfsOperationOptions, kind: Kind, entries: seq<Path>, nodes: map<Path, Node>)
    requires BatchSafe(o, kind, entries, nodes)
    ensures Deliverable(o, kind, entries, nodes)
    decreases |entries|
  {
    if entries != [] {
      BatchHeadReady(o, kind, entries, nodes);
      BatchSafeStep(o, kind, entries, nodes);
      SafeIsDeliverable(o, kind, entries[1..], EntryNodes(o, kind, entries[0], nodes));
    }
  }

  /** One delivered round adds only destinations, leaves them files, and
      keeps every other node; a move also removes the entry itself. */
  lemma EntryNodesFrame(o: VfsOperationOptions, kind: Kind, e: Path, nodes: map<Path, Node>)
    requires e in nodes && nodes[e].File?
    ensures forall p :: p in EntryNodes(o, kind, e, nodes) ==> p in nodes || p in Dests(o, e)
    ensures forall p :: p in Dests(o, e) && p in EntryNodes(o, kind, e, nodes) ==>
                          EntryNodes(o, kind, e, nodes)[p].File?
    ensures forall p :: p in nodes && p !in Dests(o, e) && (kind == Move ==> p != e) ==>
                          p in EntryNodes(o, kind, e, nodes) && EntryNodes(o, kind, e, nodes)[p] == nodes[p]
  {
    var tp := TargetOf(o, e);
    if o.archiveDirectory.Str? {
      var archived := Delivered(Copy, e, ArchiveOf(o, e), nodes);
      DeliveredFrame(Copy, e, ArchiveOf(o, e), nodes);
      DeliveredFrame(kind, e, tp, archived);
    } else {
      DeliveredFrame(kind, e, tp, nodes);
    }
  }

  /** One delivery adds only its target, leaves it a file, keeps the entry a
      file for a copy, and keeps every other node. */
  lemma DeliveredFrame(kind: Kind, file: Path, tp: Path, nodes: map<Path, Node>)
    requires file in nodes && nodes[file].File?
    ensures forall p :: p in Delivered(kind, file, tp, nodes) ==> p in nodes || p == tp
    ensures tp in Delivered(kind, file, tp, nodes) ==> Delivered(kind, file, tp, nodes)[tp].File?
    ensures kind == Copy ==> file in Delivered(kind, file, tp, nodes) && Delivered(kind, file, tp, nodes)[file].File?
    ensures forall p :: p in nodes && p != tp && (kind == Move ==> p != file) ==>
                          p in Delivered(kind, file, tp, nodes) && Delivered(kind, file, tp, nodes)[p] == nodes[p]
  {
  }

  /** A delivered round leaves the rest of the batch as safe as it was. */
  lemma BatchSafeStep(o: VfsOperationOptions, kind: Kind, entries: seq<Path>, nodes: map<Path, Node>)
    requires entries != [] && BatchSafe(o, kind, entries, nodes)
    ensures entries[0] in nodes && nodes[entries[0]].File?
    ensures BatchSafe(o, kind, entries[1..], EntryNodes(o, kind, entries[0], nodes))
  {
    ApartStep(o, kind, entries, nodes);
    if o.streamingTransfer {
      NoFolderStep(o, kind, entries, nodes);
    }
    if o.lockEnabled {
      NoLockStep(o, kind, entries, nodes);
    }
  }

  lemma AllFilesStep(o: VfsOperationOptions, kind: Kind, entries:seq<Path>, nodes: map<Path, Node>)
    requires entries != [] && AllFiles(entries, nodes) && ApartFromDests(o, entries)
    requires kind == Move ==> NoDup(entries)
    ensures entries[0] in nodes && nodes[entries[0]].File?
    ensures AllFiles(entries[1..], EntryNodes(o, kind, entries[0], nodes))
  {
    var e0 := entries[0];
    assert e0 in entries;
    var n := EntryNodes(o, kind, e0, nodes);
    EntryNodesFrame(o, kind, e0, nodes);
    forall e | e in entries[1..]
      ensures e in n && n[e].File?
    {
      assert e in entries;
      assert e !in Dests(o, e0);
      assert kind == Move ==> e != e0;
    }
  }

  lemma NoFolderStep(o: VfsOperationOptions, kind: Kind, entries: seq<Path>, nodes: map<Path, Node>)
    requires entries != [] && AllFiles(entries, nodes) && NoFolderInWay(o, entries, nodes)
    ensures entries[0] in nodes && nodes[entries[0]].File?
    ensures NoFolderInWay(o, entries[1..], EntryNodes(o, kind, entries[0], nodes))
  {
    var e0 := entries[0];
    assert e0 in entries;
    var n := EntryNodes(o, kind, e0, nodes);
    EntryNodesFrame(o, kind, e0, nodes);
    forall e, d | e in entries[1..] && d in Dests(o, e)
      ensures !(d in n && n[d].Folder?)
    {
      assert e in entries;
      assert !(d in nodes && nodes[d].Folder?);
    }
  }

  lemma NoLockStep(o: VfsOperationOptions, kind: Kind, entries: seq<Path>, nodes: map<Path, Node>)
    requires entries != [] && AllFiles(entries, nodes) && NoLockInWay(o, entries, nodes)
    ensures entries[0] in nodes && nodes[entries[0]].File?
    ensures NoLockInWay(o, entries[1..], EntryNodes(o, kind, entries[0], nodes))
  {
    var e0 := entries[0];
    assert e0 in entries;
    var n := EntryNodes(o, kind, e0, nodes);
    EntryNodesFrame(o, kind, e0, nodes);
    forall e, d | e in entries[1..] && d in Dests(o, e)
      ensures LockFree(o, entries[1..], d, n)
    {
      assert e in entries;
      assert LockFree(o, entries, d, nodes);
      assert LockFilePath(d) !in Dests(o, e0);
      forall e' | e' in entries[1..] ensures LockFilePath(d) !in Dests(o, e') {
        assert e' in entries;
      }
    }
  }

  /** One round in a calm world: when the entry is a file and the way is
      clear, both copies succeed, the round reports a transfer, and the
      nodes are as EntryNodes says. */
  lemma CalmEntry(o: VfsOperationOptions, kind: Kind, e: Path, w: World)
    requires StreamSafe(o) && Calm(w) && EntryReady(o, e, w.nodes)
    ensures Entry(o, kind, e, w).1 == Ok(true)
    ensures Entry(o, kind, e, w).0.nodes == EntryNodes(o, kind, e, w.nodes)
    ensures Calm(Entry(o, kind, e, w).0)
  {
    var tp := TargetOf(o, e);
    assert tp in Dests(o, e);
    if o.archiveDirectory.Str? {
      var ap := ArchiveOf(o, e);
      assert ap in Dests(o, e);
      CalmTransferred(o, Copy, e, o.archiveDirectory.value, o.lockEnabled, Archive, w);
      var w1 := Transferred(o, Copy, e, o.archiveDirectory.value, o.lockEnabled, Archive, w).0;
      assert w1.nodes == w.nodes[ap := File(w.nodes[e].content)];
      assert IsFile(w1, e);
      assert o.streamingTransfer ==> !IsFolder(w1, tp);
      assert o.lockEnabled ==> LockFilePath(tp) !in w1.nodes;
      CalmTransferred(o, kind, e, Text(o.targetDirectory), o.lockEnabled, Target, w1);
      assert Entry(o, kind, e, w) == Primary(o, kind, e, w1);
    } else {
      CalmTransferred(o, kind, e, Text(o.targetDirectory), o.lockEnabled, Target, w);
    }
  }

  /** The loop of Processed over an arbitrary round function, so that a
      proof about the loop's shape need not look inside a round. */
  function Rounds(round: (Path, World) -> (World, Result<bool>), entries: seq<Path>, count: int, w: World)
    : (World, Result<int>)
    decreases |entries|
  {
    if entries == [] then (w, Ok(count))
    else
      var (w1, r) := round(entries[0], w);
      if r.Throws? then (w1, Throws(r.error))
      else Rounds(round, entries[1..], if r.value then count + 1 else count, w1)
  }

  /** Processed is Rounds with Entry as its round. */
  lemma {:induction false} ProcessedRounds(o: VfsOperationOptions, kind: Kind, entries: seq<Path>, count: int,
                                           w: World)
    requires StreamSafe(o)
    ensures Processed(o, kind, entries, count, w) == Rounds((e, x) => Entry(o, kind, e, x), entries, count, w)
    decreases |entries|
  {
    if entries != [] {
      var (w1, r) := Entry(o, kind, entries[0], w);
      if r.Ok? {
        ProcessedRounds(o, kind, entries[1..], if r.value then count + 1 else count, w1);
      }
    }
  }

  /** The loop succeeds on every entry when each round, from any state the
      invariant admits, reports a transfer and leads to a state the
      invariant admits for the rest; the invariant then holds at the end. */
  lemma {:induction false} EveryRoundCounts(round: (Path, World) -> (World, Result<bool>), entries: seq<Path>,
                                            count: int, w: World, inv: (seq<Path>, World) -> bool,
                                            next: (seq<Path>, World) -> World)
    requires inv(entries, w)
    requires forall es: seq<Path>, x: World {:trigger next(es, x)} :: inv(es, x) && es != [] ==>
               round(es[0], x) == (next(es, x), Ok(true)) && inv(es[1..], next(es, x))
    ensures Rounds(round, entries, count, w).1 == Ok(count + |entries|)
    ensures inv([], Rounds(round, entries, count, w).0)
    decreases |entries|
  {
    if entries != [] {
      var w1 := next(entries, w);
      EveryRoundCounts(round, entries[1..], count + 1, w1, inv, next);
    }
  }

  /** The loop in a calm world over a deliverable batch: every entry is
      delivered and counted, so the count grows by the number of entries,
      and the final nodes are those of BatchNodes. */
  lemma CalmProcessed(o: VfsOperationOptions, kind: Kind, entries: seq<Path>, count: int, w: World)
    requires StreamSafe(o) && Calm(w) && Deliverable(o, kind, entries, w.nodes)
    ensures Processed(o, kind, entries, count, w).1 == Ok(count + |entries|)
    ensures Processed(o, kind, entries, count, w).0.nodes == BatchNodes(o, kind, entries, w.nodes)
    ensures Calm(Processed(o, kind, entries, count, w).0)
  {
    var goal := BatchNodes(o, kind, entries, w.nodes);
    var round := (e: Path, x: World) => Entry(o, kind, e, x);
    var inv := (es: seq<Path>, x: World) =>
      Calm(x) && Deliverable(o, kind, es, x.nodes) && BatchNodes(o, kind, es, x.nodes) == goal;
    var next := (es: seq<Path>, x: World) => if es == [] then x else Entry(o, kind, es[0], x).0;
    forall es: seq<Path>, x: World | inv(es, x) && es != []
      ensures round(es[0], x) == (next(es, x), Ok(true)) && inv(es[1..], next(es, x))
    {
      CalmEntry(o, kind, es[0], x);
      BatchNodesStep(o, kind, es, x.nodes);
    }
    EveryRoundCounts(round, entries, count, w, inv, next);
    ProcessedRounds(o, kind, entries, count, w);
  }

  lemma BatchNodesStep(o: VfsOperationOptions, kind: Kind, entries: seq<Path>, nodes: map<Path, Node>)
    requires entries != [] && entries[0] in nodes && nodes[entries[0]].File?
    ensures BatchNodes(o, kind, entries, nodes) == BatchNodes(o, kind, entries[1..], EntryNodes(o, kind, entries[0], nodes))
  {
  }

  /** doOperation over a prepared, safe batch in a calm world: the result is
      the number of listed entries and the nodes are those of BatchNodes. */
  lemma CalmOperated(o: VfsOperationOptions, kind: Kind, matches: (string, string) -> bool, w: World,
                     entries: seq<Path>, w1: World)
    requires StreamSafe(o) && Calm(w) && Prepared(o, matches, w) == (w1, Ok(entries))
    requires BatchSafe(o, kind, entries, w1.nodes)
    ensures Operated(o, kind, matches, w).1 == Ok(|entries|)
    ensures Operated(o, kind, matches, w).0.nodes == BatchNodes(o, kind, entries, w1.nodes)
  {
    PreparedConsumes(o, matches, w);
    CalmStaysCalm(w, w1);
    SafeIsDeliverable(o, kind, entries, w1.nodes);
    CalmProcessed(o, kind, entries, 0, w1);
    assert Processed(o, kind, entries, 0, w1).1.value == |entries|;
    OperatedIsProcessed(o, kind, matches, w, entries, w1);
  }

  lemma PreparedConsumes(o: VfsOperationOptions, matches: (string, string) -> bool, w: World)
    ensures Consumes(w, Prepared(o, matches, w).0)
  {
    PreparedEffect(o, matches, w);
  }

  /** Once preparation succeeds, doOperation is its loop from count 0. */
  lemma OperatedIsProcessed(o: VfsOperationOptions, kind: Kind, matches: (string, string) -> bool, w: World,
                            entries: seq<Path>, w1: World)
    requires StreamSafe(o) && Prepared(o, matches, w) == (w1, Ok(entries))
    ensures Operated(o, kind, matches, w) == Processed(o, kind, entries, 0, w1)
  {
  }

  /** copyFiles or moveFiles in a calm world whose target, archive and
      source folders exist: it returns the number of listed files and
      leaves the nodes that delivering them one by one gives. */
  lemma CalmOperationCounts(o: VfsOperationOptions, kind: Kind, matches: (string, string) -> bool, w: World)
    requires StreamSafe(o) && Calm(w)
    requires o.targetDirectory.Str? && IsFolder(w, o.targetDirectory.value)
    requires o.archiveDirectory.Str? ==> IsFolder(w, o.archiveDirectory.value)
    requires o.sourceDirectory.Str? && IsFolder(w, o.sourceDirectory.value)
    requires BatchSafe(o, kind, Listing(w, o.sourceDirectory.value, o.filePatternRegex, matches), w.nodes)
    ensures Operated(o, kind, matches, w).1 == Ok(|Listing(w, o.sourceDirectory.value, o.filePatternRegex, matches)|)
    ensures Operated(o, kind, matches, w).0.nodes
            == BatchNodes(o, kind, Listing(w, o.sourceDirectory.value, o.filePatternRegex, matches), w.nodes)
  {
    CalmPreparedReady(o, matches, w);
    var w1 := Prepared(o, matches, w).0;
    CalmOperated(o, kind, matches, w, Listing(w, o.sourceDirectory.value, o.filePatternRegex, matches), w1);
  }

  /* ----- Where a batch leaves the files. ----- */

  /** A delivered round keeps the rest of the batch apart. */
  lemma ApartStep(o: VfsOperationOptions, kind: Kind, entries: seq<Path>, nodes: map<Path, Node>)
    requires entries != [] && Apart(o, kind, entries, nodes)
    ensures entries[0] in nodes && nodes[entries[0]].File?
    ensures Apart(o, kind, entries[1..], EntryNodes(o, kind, entries[0], nodes))
  {
    AllFilesStep(o, kind, entries, nodes);
    var rest := entries[1..];
    forall e, e' | e in rest && e' in rest ensures e !in Dests(o, e') {
      assert e in entries && e' in entries;
    }
  }

  /** Every destination of the entries. */
  function BatchDests(o: VfsOperationOptions, entries: seq<Path>): set<Path>
    decreases |entries|
  {
    if entries == [] then {} else Dests(o, entries[0]) + BatchDests(o, entries[1..])
  }

  /** The destinations of every entry are destinations of the batch. */
  lemma {:induction false} DestsInBatch(o: VfsOperationOptions, entries: seq<Path>, e: Path)
    requires e in entries
    ensures Dests(o, e) <= BatchDests(o, entries)
    decreases |entries|
  {
    var rest := entries[1..];
    var later := BatchDests(o, rest);
    assert BatchDests(o, entries) == Dests(o, entries[0]) + later;
    if e != entries[0] {
      assert e in rest;
      DestsInBatch(o, rest, e);
    }
  }

  /** A path that is no destination of a single entry is no destination of
      the batch. */
  lemma {:induction false} OutsideBatchDests(o: VfsOperationOptions, entries: seq<Path>, p: Path)
    requires forall e :: e in entries ==> p !in Dests(o, e)
    ensures p !in BatchDests(o, entries)
    decreases |entries|
  {
    if entries != [] {
      assert entries[0] in entries;
      forall e | e in entries[1..] ensures p !in Dests(o, e) {
        assert e in entries;
      }
      OutsideBatchDests(o, entries[1..], p);
    }
  }

  /** One delivered round, when the entry is none of its own destinations:
      every destination holds the entry's content, a move removes the entry,
      a copy leaves it as it was. */
  lemma EntryDelivers(o: VfsOperationOptions, kind: Kind, e: Path, nodes: map<Path, Node>)
    requires e in nodes && nodes[e].File? && e !in Dests(o, e)
    ensures forall d :: d in Dests(o, e) ==>
              d in EntryNodes(o, kind, e, nodes) && EntryNodes(o, kind, e, nodes)[d] == File(nodes[e].content)
    ensures kind == Move ==> e !in EntryNodes(o, kind, e, nodes)
    ensures kind == Copy ==> e in EntryNodes(o, kind, e, nodes) && EntryNodes(o, kind, e, nodes)[e] == nodes[e]
  {
    assert TargetOf(o, e) in Dests(o, e);
    if o.archiveDirectory.Str? {
      assert ArchiveOf(o, e) in Dests(o, e);
    }
  }

  /** In any world the batch adds no path but destinations. */
  lemma {:induction false} BatchDomain(o: VfsOperationOptions, kind: Kind, entries: seq<Path>, nodes: map<Path, Node>)
    ensures forall p :: p in BatchNodes(o, kind, entries, nodes) ==> p in nodes || p in BatchDests(o, entries)
    decreases |entries|
  {
    if entries != [] {
      var e0, rest := entries[0], entries[1..];
      var n1 := if e0 in nodes && nodes[e0].File? then EntryNodes(o, kind, e0, nodes) else nodes;
      assert BatchNodes(o, kind, entries, nodes) == BatchNodes(o, kind, rest, n1);
      assert BatchDests(o, entries) == Dests(o, e0) + BatchDests(o, rest);
      if e0 in nodes && nodes[e0].File? {
        EntryNodesFrame(o, kind, e0, nodes);
      }
      BatchDomain(o, kind, rest, n1);
    }
  }

  /** In any world a path that is no destination keeps its node through the
      batch, unless a move takes it as an entry. */
  lemma BatchKeeps(o: VfsOperationOptions, kind: Kind, entries: seq<Path>, nodes: map<Path, Node>)
    ensures forall p :: p in nodes && p !in BatchDests(o, entries) && (kind == Move ==> p !in entries) ==>
              p in BatchNodes(o, kind, entries, nodes) && BatchNodes(o, kind, entries, nodes)[p] == nodes[p]
  {
    forall p | p in nodes && p !in BatchDests(o, entries) && (kind == Move ==> p !in entries)
      ensures p in BatchNodes(o, kind, entries, nodes) && BatchNodes(o, kind, entries, nodes)[p] == nodes[p]
    {
      KeepsAt(o, kind, entries, nodes, p);
    }
  }

  lemma {:induction false} KeepsAt(o: VfsOperationOptions, kind: Kind, entries: seq<Path>, nodes: map<Path, Node>,
                                   p: Path)
    requires p in nodes && p !in BatchDests(o, entries) && (kind == Move ==> p !in entries)
    ensures p in BatchNodes(o, kind, entries, nodes) && BatchNodes(o, kind, entries, nodes)[p] == nodes[p]
    decreases |entries|
  {
    if entries != [] {
      var e0, rest := entries[0], entries[1..];
      var n1 := if e0 in nodes && nodes[e0].File? then EntryNodes(o, kind, e0, nodes) else nodes;
      assert BatchNodes(o, kind, entries, nodes) == BatchNodes(o, kind, rest, n1);
      assert BatchDests(o, entries) == Dests(o, e0) + BatchDests(o, rest);
      if e0 in nodes && nodes[e0].File? {
        EntryNodesFrame(o, kind, e0, nodes);
      }
      assert kind == Move ==> p != e0 && (p in rest ==> p in entries);
      KeepsAt(o, kind, rest, n1, p);
    }
  }

  /** A safe batch delivers: every destination holds a file afterwards. */
  lemma BatchDelivers(o: VfsOperationOptions, kind: Kind, entries: seq<Path>, nodes: map<Path, Node>)
    requires Apart(o, kind, entries, nodes)
    ensures forall d :: d in BatchDests(o, entries) ==>
              d in BatchNodes(o, kind, entries, nodes) && BatchNodes(o, kind, entries, nodes)[d].File?
  {
    forall d | d in BatchDests(o, entries)
      ensures d in BatchNodes(o, kind, entries, nodes) && BatchNodes(o, kind, entries, nodes)[d].File?
    {
      DeliversAt(o, kind, entries, nodes, d);
    }
  }

  /** No entry after the i-th has d among its destinations. */
  predicate LastToReach(o: VfsOperationOptions, entries: seq<Path>, i: nat, d: Path)
  {
    forall j :: i < j < |entries| ==> d !in Dests(o, entries[j])
  }

  /** In a safe batch a destination that no later entry reaches holds the
      content its entry had at the start. */
  lemma BatchContents(o: VfsOperationOptions, kind: Kind, entries: seq<Path>, nodes: map<Path, Node>)
    requires Apart(o, kind, entries, nodes)
    ensures forall i, d :: 0 <= i < |entries| && d in Dests(o, entries[i]) && LastToReach(o, entries, i, d) ==>
              d in BatchNodes(o, kind, entries, nodes)
              && BatchNodes(o, kind, entries, nodes)[d] == File(nodes[entries[i]].content)
  {
    forall i, d | 0 <= i < |entries| && d in Dests(o, entries[i]) && LastToReach(o, entries, i, d)
      ensures d in BatchNodes(o, kind, entries, nodes)
              && BatchNodes(o, kind, entries, nodes)[d] == File(nodes[entries[i]].content)
    {
      ContentAt(o, kind, entries, nodes, i, d);
    }
  }

  /** A destination of the first entry is no entry of a safe batch. */
  lemma DestNotEntry(o: VfsOperationOptions, kind: Kind, entries: seq<Path>, nodes: map<Path, Node>, d: Path)
    requires entries != [] && Apart(o, kind, entries, nodes) && d in Dests(o, entries[0])
    ensures d !in entries
  {
    assert entries[0] in entries;
  }

  lemma {:induction false} DeliversAt(o: VfsOperationOptions, kind: Kind, entries: seq<Path>, nodes: map<Path, Node>,
                                      d: Path)
    requires Apart(o, kind, entries, nodes) && d in BatchDests(o, entries)
    ensures d in BatchNodes(o, kind, entries, nodes) && BatchNodes(o, kind, entries, nodes)[d].File?
    decreases |entries|
  {
    var e0, rest := entries[0], entries[1..];
    assert BatchDests(o, entries) == Dests(o, e0) + BatchDests(o, rest);
    ApartStep(o, kind, entries, nodes);
    var n1 := EntryNodes(o, kind, e0, nodes);
    BatchNodesStep(o, kind, entries, nodes);
    if d in BatchDests(o, rest) {
      DeliversAt(o, kind, rest, n1, d);
    } else {
      assert e0 in entries;
      EntryDelivers(o, kind, e0, nodes);
      DestNotEntry(o, kind, entries, nodes, d);
      assert d !in rest;
      KeepsAt(o, kind, rest, n1, d);
    }
  }

  lemma {:induction false} ContentAt(o: VfsOperationOptions, kind: Kind, entries: seq<Path>, nodes: map<Path, Node>,
                                     i: nat, d: Path)
    requires Apart(o, kind, entries, nodes) && 0 <= i < |entries|
    requires d in Dests(o, entries[i]) && LastToReach(o, entries, i, d)
    ensures d in BatchNodes(o, kind, entries, nodes)
            && BatchNodes(o, kind, entries, nodes)[d] == File(nodes[entries[i]].content)
    decreases |entries|
  {
    if i == 0 {
      ContentFirst(o, kind, entries, nodes, d);
    } else {
      var rest := entries[1..];
      ApartStep(o, kind, entries, nodes);
      var n1 := EntryNodes(o, kind, entries[0], nodes);
      BatchNodesStep(o, kind, entries, nodes);
      forall j | i - 1 < j < |rest| ensures d !in Dests(o, rest[j]) {
        assert rest[j] == entries[j + 1];
      }
      assert rest[i - 1] == entries[i];
      ContentAt(o, kind, rest, n1, i - 1, d);
      LaterEntryKept(o, kind, entries, nodes, i);
    }
  }

  /** The first entry's destination that no later entry reaches. */
  lemma ContentFirst(o: VfsOperationOptions, kind: Kind, entries: seq<Path>, nodes: map<Path, Node>, d: Path)
    requires entries != [] && Apart(o, kind, entries, nodes)
    requires d in Dests(o, entries[0]) && LastToReach(o, entries, 0, d)
    ensures d in BatchNodes(o, kind, entries, nodes)
            && BatchNodes(o, kind, entries, nodes)[d] == File(nodes[entries[0]].content)
  {
    var e0, rest := entries[0], entries[1..];
    ApartStep(o, kind, entries, nodes);
    var n1 := EntryNodes(o, kind, e0, nodes);
    BatchNodesStep(o, kind, entries, nodes);
    assert e0 in entries;
    EntryDelivers(o, kind, e0, nodes);
    DestNotEntry(o, kind, entries, nodes, d);
    assert d !in rest;
    LastReachesNoMore(o, entries, d);
    KeepsAt(o, kind, rest, n1, d);
  }

  lemma LastReachesNoMore(o: VfsOperationOptions, entries: seq<Path>, d: Path)
    requires entries != [] && LastToReach(o, entries, 0, d)
    ensures d !in BatchDests(o, entries[1..])
  {
    var rest := entries[1..];
    forall e | e in rest ensures d !in Dests(o, e) {
      var j :| 0 <= j < |rest| && rest[j] == e;
      assert entries[j + 1] == e;
    }
    OutsideBatchDests(o, rest, d);
  }

  /** A later entry of a safe batch is untouched by the first round. */
  lemma LaterEntryKept(o: VfsOperationOptions, kind: Kind, entries: seq<Path>, nodes: map<Path, Node>, i: int)
    requires Apart(o, kind, entries, nodes) && 0 < i < |entries|
    ensures entries[0] in nodes && nodes[entries[0]].File?
    ensures entries[i] in EntryNodes(o, kind, entries[0], nodes)
            && EntryNodes(o, kind, entries[0], nodes)[entries[i]] == nodes[entries[i]]
  {
    var e0, e := entries[0], entries[i];
    assert e0 in entries && e in entries;
    assert e !in Dests(o, e0);
    assert kind == Move ==> e != e0 by {
      if kind == Move { assert e in entries[1..]; }
    }
    EntryNodesFrame(o, kind, e0, nodes);
  }

  /** After a safe batch a move has removed every entry and a copy has left
      every entry as it was. */
  lemma BatchSources(o: VfsOperationOptions, kind: Kind, entries: seq<Path>, nodes: map<Path, Node>)
    requires Apart(o, kind, entries, nodes)
    ensures kind == Move ==> forall e :: e in entries ==> e !in BatchNodes(o, kind, entries, nodes)
    ensures kind == Copy ==> forall e :: e in entries ==>
              e in BatchNodes(o, kind, entries, nodes) && BatchNodes(o, kind, entries, nodes)[e] == nodes[e]
  {
    BatchKeeps(o, kind, entries, nodes);
    forall e | e in entries ensures e !in BatchDests(o, entries) {
      OutsideBatchDests(o, entries, e);
    }
    if kind == Move {
      MovedAway(o, entries, nodes);
    }
  }

  lemma {:induction false} MovedAway(o: VfsOperationOptions, entries: seq<Path>, nodes: map<Path, Node>)
    requires Apart(o, Move, entries, nodes)
    ensures forall e :: e in entries ==> e !in BatchNodes(o, Move, entries, nodes)
    decreases |entries|
  {
    if entries != [] {
      var e0, rest := entries[0], entries[1..];
      assert e0 in entries;
      ApartStep(o, Move, entries, nodes);
      var n1 := EntryNodes(o, Move, e0, nodes);
      BatchNodesStep(o, Move, entries, nodes);
      EntryDelivers(o, Move, e0, nodes);
      forall e | e in rest ensures e0 !in Dests(o, e) {
        assert e in entries;
      }
      OutsideBatchDests(o, rest, e0);
      BatchDomain(o, Move, rest, n1);
      MovedAway(o, rest, n1);
    }
  }

  /** copyFiles or moveFiles in a calm world whose folders exist, over a
      safe listing: the count is the number of listed files, every target and
      archive destination holds a file afterwards, a move leaves none of the
      listed files in place and a copy leaves them as they were. */
  lemma CalmOperationDelivers(o: VfsOperationOptions, kind: Kind, matches: (string, string) -> bool, w: World)
    requires StreamSafe(o) && Calm(w)
    requires o.targetDirectory.Str? && IsFolder(w, o.targetDirectory.value)
    requires o.archiveDirectory.Str? ==> IsFolder(w, o.archiveDirectory.value)
    requires o.sourceDirectory.Str? && IsFolder(w, o.sourceDirectory.value)
    requires BatchSafe(o, kind, Listing(w, o.sourceDirectory.value, o.filePatternRegex, matches), w.nodes)
    ensures var listed := Listing(w, o.sourceDirectory.value, o.filePatternRegex, matches);
            var after := Operated(o, kind, matches, w);
            && after.1 == Ok(|listed|)
            && (forall d :: d in BatchDests(o, listed) ==> d in after.0.nodes && after.0.nodes[d].File?)
            && (kind == Move ==> forall e :: e in listed ==> e !in after.0.nodes)
            && (kind == Copy ==> forall e :: e in listed ==> e in after.0.nodes && after.0.nodes[e] == w.nodes[e])
  {
    var listed := Listing(w, o.sourceDirectory.value, o.filePatternRegex, matches);
    CalmOperationCounts(o, kind, matches, w);
    BatchDelivers(o, kind, listed, w.nodes);
    BatchSources(o, kind, listed, w.nodes);
  }

  /* ----- What a batch may change, in any world. ----- */

  /** The paths one round may change: the entry, its destinations and, with
      locking on, their lock files. */
  function EntryTouched(o: VfsOperationOptions, e: Path): set<Path>
  {
    Touched(e, TargetOf(o, e), o.lockEnabled)
    + (if o.archiveDirectory.Str? then Touched(e, ArchiveOf(o, e), o.lockEnabled) else {})
  }

  function BatchTouched(o: VfsOperationOptions, entries: seq<Path>): set<Path>
    decreases |entries|
  {
    if entries == [] then {} else EntryTouched(o, entries[0]) + BatchTouched(o, entries[1..])
  }

  /** One round, whatever the environment does, stays within EntryTouched. */
  lemma EntryEvolves(o: VfsOperationOptions, kind: Kind, e: Path, w: World)
    requires StreamSafe(o)
    ensures Evolves(w, Entry(o, kind, e, w).0, EntryTouched(o, e))
  {
    var touched := EntryTouched(o, e);
    TransferredEvolves(o, kind, e, Text(o.targetDirectory), o.lockEnabled, Target, w);
    if !IsFile(w, e) {
      if o.archiveDirectory.Str? {
        TransferredEvolves(o, Copy, e, o.archiveDirectory.value, o.lockEnabled, Archive, w);
      }
      SameNodesEvolve(w, w, touched);
    } else if o.archiveDirectory.Str? {
      ArchivedEntryEvolves(o, kind, e, w);
    } else {
      EvolvesWider(w, Entry(o, kind, e, w).0, Touched(e, TargetOf(o, e), o.lockEnabled), touched);
    }
  }

  /** A round with an archive directory: the archive copy, then, if it
      succeeded, the primary transfer. */
  lemma ArchivedEntryEvolves(o: VfsOperationOptions, kind: Kind, e: Path, w: World)
    requires StreamSafe(o) && o.archiveDirectory.Str? && IsFile(w, e)
    ensures Evolves(w, Entry(o, kind, e, w).0, EntryTouched(o, e))
  {
    var a := Transferred(o, Copy, e, o.archiveDirectory.value, o.lockEnabled, Archive, w);
    TransferredEvolves(o, Copy, e, o.archiveDirectory.value, o.lockEnabled, Archive, w);
    if a.1.Ok? {
      PrimaryAfterArchive(o, kind, e, w, a.0);
      assert Entry(o, kind, e, w) == Primary(o, kind, e, a.0);
    } else {
      EvolvesWider(w, a.0, Touched(e, ArchiveOf(o, e), o.lockEnabled), EntryTouched(o, e));
    }
  }

  lemma PrimaryAfterArchive(o: VfsOperationOptions, kind: Kind, e: Path, w: World, w1: World)
    requires StreamSafe(o) && o.archiveDirectory.Str?
    requires Evolves(w, w1, Touched(e, ArchiveOf(o, e), o.lockEnabled))
    ensures Evolves(w, Primary(o, kind, e, w1).0, EntryTouched(o, e))
  {
    var ta, tt := Touched(e, ArchiveOf(o, e), o.lockEnabled), Touched(e, TargetOf(o, e), o.lockEnabled);
    var w2 := Primary(o, kind, e, w1).0;
    TransferredEvolves(o, kind, e, Text(o.targetDirectory), o.lockEnabled, Target, w1);
    if IsFile(w1, e) {
      EvolvesTransitive(w, w1, w2, ta, tt);
      EvolvesWider(w, w2, ta + tt, EntryTouched(o, e));
    } else {
      SameNodesEvolve(w1, w2, {});
      EvolvesTransitive(w, w1, w2, ta, {});
      EvolvesWider(w, w2, ta + {}, EntryTouched(o, e));
    }
  }

  /** The loop, whatever the environment does, changes only the entries,
      their destinations and their lock files. */
  lemma {:induction false} ProcessedEvolves(o: VfsOperationOptions, kind: Kind, entries: seq<Path>, count: int, w: World)
    requires StreamSafe(o)
    ensures Evolves(w, Processed(o, kind, entries, count, w).0, BatchTouched(o, entries))
    decreases |entries|
  {
    if entries == [] {
      SameNodesEvolve(w, w, {});
    } else {
      var r := Entry(o, kind, entries[0], w);
      EntryEvolves(o, kind, entries[0], w);
      if r.1.Throws? {
        EvolvesWider(w, r.0, EntryTouched(o, entries[0]), BatchTouched(o, entries));
      } else {
        var c := if r.1.value then count + 1 else count;
        ProcessedEvolves(o, kind, entries[1..], c, r.0);
        EvolvesTransitive(w, r.0, Processed(o, kind, entries[1..], c, r.0).0,
                          EntryTouched(o, entries[0]), BatchTouched(o, entries[1..]));
      }
    }
  }

  /** doOperation, whatever the environment does, changes only the target
      and archive directories and, once the listing is in, the listed
      entries, their destinations and their lock files. */
  lemma OperatedEvolves(o: VfsOperationOptions, kind: Kind, matches: (string, string) -> bool, w: World)
    requires StreamSafe(o)
    ensures var p := Prepared(o, matches, w);
            Evolves(w, Operated(o, kind, matches, w).0,
                    PreparedDirs(o) + (if p.1.Ok? then BatchTouched(o, p.1.value) else {}))
  {
    var p := Prepared(o, matches, w);
    PreparedEffect(o, matches, w);
    var touched := PreparedDirs(o) + (if p.1.Ok? then BatchTouched(o, p.1.value) else {});
    if p.1.Ok? {
      ProcessedEvolves(o, kind, p.1.value, 0, p.0);
      EvolvesTransitive(w, p.0, Operated(o, kind, matches, w).0, PreparedDirs(o), BatchTouched(o, p.1.value));
    } else {
      EvolvesWider(w, p.0, PreparedDirs(o), touched);
    }
  }
}
