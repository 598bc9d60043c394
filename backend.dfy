/** The virtual filesystem as the engine sees it: a map from path to
    folder or file, a listing order, and a script of the environment's
    behaviour. Each fallible backend call takes the next entry of `faults`
    (true: the call throws FileSystemException and has no effect); each
    Thread.sleep takes the next entry of `interrupts`. An exhausted script
    means the calls succeed and the waits end normally. */
module Backend {
  import opened Java
  import opened Retrier

  newtype byte = x: int | 0 <= x < 256

  type Path = string

  datatype Node = Folder | File(content: seq<byte>)

  datatype World = World(nodes: map<Path, Node>, order: seq<Path>, faults: seq<bool>, interrupts: seq<bool>)

  predicate IsFile(w: World, p: Path) { p in w.nodes && w.nodes[p].File? }

  predicate IsFolder(w: World, p: Path) { p in w.nodes && w.nodes[p].Folder? }

  /** Creates or overwrites the node at p; a new path joins the listing order. */
  function Put(w: World, p: Path, n: Node): (w': World)
    ensures w'.nodes == w.nodes[p := n]
    ensures w'.faults == w.faults && w'.interrupts == w.interrupts
  {
    w.(nodes := w.nodes[p := n], order := if p in w.order then w.order else w.order + [p])
  }

  function Remove(w: World, p: Path): (w': World)
    ensures w'.nodes == w.nodes - {p}
    ensures w'.faults == w.faults && w'.interrupts == w.interrupts
  {
    w.(nodes := w.nodes - {p})
  }

  /** The environment's verdict on the next fallible call: true means it fails. */
  function NextFault(w: World): (World, bool)
  {
    if w.faults == [] then (w, false) else (w.(faults := w.faults[1..]), w.faults[0])
  }

  /** Thread.sleep(retryWait): a negative wait throws; otherwise the next
      interrupt entry decides whether the wait is cut short. */
  function Sleep(retryWait: int): World -> (World, Wake<Exception>)
  {
    (w: World) =>
      if retryWait < 0 then (w, SleepFailed(IllegalArgumentException))
      else if w.interrupts == [] then (w, Woke)
      else (w.(interrupts := w.interrupts[1..]), if w.interrupts[0] then Interrupted else Woke)
  }

  /** p names a direct child of the folder dir: dir + "/" + a name without '/'. */
  predicate IsChildOf(p: Path, dir: Path)
  {
    |p| > |dir| + 1 && p[..|dir| + 1] == dir + "/" && LastIndexOf(p, '/') == |dir|
  }

  /** FileName.getBaseName(): the last segment of a path. */
  function BaseName(p: Path): (name: string)
    ensures Lacks(name, '/')
    ensures name == p[LastIndexOf(p, '/') + 1..]
  {
    AfterLast(p, '/')
  }

  /** a is b with some entries dropped: the rest keep their relative order. */
  predicate SubseqOf<T(==)>(a: seq<T>, b: seq<T>)
    decreases |b|
  {
    a == [] || (b != [] && ((a[0] == b[0] && SubseqOf(a[1..], b[1..])) || SubseqOf(a, b[1..])))
  }

  /** No entry occurs twice. */
  predicate NoDup<T(==)>(s: seq<T>)
  {
    s == [] || (s[0] !in s[1..] && NoDup(s[1..]))
  }

  lemma {:induction false} SubseqMembers<T>(a: seq<T>, b: seq<T>)
    requires SubseqOf(a, b)
    ensures forall x :: x in a ==> x in b
    decreases |b|
  {
    if a != [] {
      assert b != [];
      assert forall x :: x in b[1..] ==> x in b;
      if a[0] == b[0] && SubseqOf(a[1..], b[1..]) {
        SubseqMembers(a[1..], b[1..]);
        assert forall x :: x in a ==> x == a[0] || x in a[1..];
      } else {
        SubseqMembers(a, b[1..]);
      }
    }
  }

  /** Dropping entries keeps a sequence free of duplicates. */
  lemma {:induction false} SubseqNoDup<T>(a: seq<T>, b: seq<T>)
    requires SubseqOf(a, b) && NoDup(b)
    ensures NoDup(a)
    decreases |b|
  {
    if a != [] {
      if a[0] == b[0] && SubseqOf(a[1..], b[1..]) {
        SubseqNoDup(a[1..], b[1..]);
        SubseqMembers(a[1..], b[1..]);
      } else {
        SubseqNoDup(a, b[1..]);
      }
    }
  }

  lemma {:induction false} SubseqTrans<T>(a: seq<T>, b: seq<T>, c: seq<T>)
    requires SubseqOf(a, b) && SubseqOf(b, c)
    ensures SubseqOf(a, c)
    decreases |c|
  {
    if a != [] {
      assert b != [] && c != [];
      if b[0] == c[0] && SubseqOf(b[1..], c[1..]) {
        if a[0] == b[0] && SubseqOf(a[1..], b[1..]) {
          SubseqTrans(a[1..], b[1..], c[1..]);
        } else {
          SubseqTrans(a, b[1..], c[1..]);
        }
      } else {
        SubseqTrans(a, b, c[1..]);
      }
    }
  }

  /** The paths of `order` that exist and are children of dir, in order. */
  function ChildrenIn(nodes: map<Path, Node>, order: seq<Path>, dir: Path): (r: seq<Path>)
    ensures forall p :: p in r <==> p in order && p in nodes && IsChildOf(p, dir)
    ensures |r| <= |order|
    ensures SubseqOf(r, order)
  {
    if order == [] then []
    else
      var rest := ChildrenIn(nodes, order[1..], dir);
      assert forall p :: p in order <==> p == order[0] || p in order[1..];
      if order[0] in nodes && IsChildOf(order[0], dir) then [order[0]] + rest else rest
  }

  /** FileObject.getChildren() of dir, in the backend's listing order. */
  function Children(w: World, dir: Path): seq<Path>
  {
    ChildrenIn(w.nodes, w.order, dir)
  }

  /** The entries whose base name the pattern accepts (String.matches: the
      whole name must match), in order. */
  function Selected(ps: seq<Path>, regex: string, matches: (string, string) -> bool): (r: seq<Path>)
    ensures forall p :: p in r <==> p in ps && matches(regex, BaseName(p))
    ensures |r| <= |ps|
    ensures SubseqOf(r, ps)
  {
    if ps == [] then []
    else
      var rest := Selected(ps[1..], regex, matches);
      assert forall p :: p in ps <==> p == ps[0] || p in ps[1..];
      if matches(regex, BaseName(ps[0])) then [ps[0]] + rest else rest
  }

  /* ----- One backend call each. ----- */

  /** manager.resolveFile(path): a handle is the path itself. */
  function ResolveOnce(path: JString): World -> (World, Attempt<Path, Exception>)
  {
    (w: World) =>
      if path.Null? then (w, Failure(NullPointerException))
      else
        var (w1, fail) := NextFault(w);
        if fail then (w1, Failure(FileSystemException(BackendFailure))) else (w1, Success(path.value))
  }

  /** getChildren() of dir, or findFiles with a name filter on its children. */
  function ListOnce(dir: Path, pattern: JString, matches: (string, string) -> bool)
    : World -> (World, Attempt<seq<Path>, Exception>)
  {
    (w: World) =>
      var (w1, fail) := NextFault(w);
      if fail then (w1, Failure(FileSystemException(BackendFailure)))
      else (w1, Success(Listing(w1, dir, pattern, matches)))
  }

  /** The children of dir, filtered by the pattern when one is set. */
  function Listing(w: World, dir: Path, pattern: JString, matches: (string, string) -> bool): seq<Path>
  {
    if pattern.Null? then Children(w, dir) else Selected(Children(w, dir), pattern.value, matches)
  }

  /** A listing holds exactly the existing children of dir whose base name
      the pattern accepts, in the listing order, and repeats no path when
      the listing order repeats none. */
  lemma ListingMembers(w: World, dir: Path, pattern: JString, matches: (string, string) -> bool)
    ensures forall p :: p in Listing(w, dir, pattern, matches) <==>
                          p in w.order && p in w.nodes && IsChildOf(p, dir)
                          && (pattern.Str? ==> matches(pattern.value, BaseName(p)))
    ensures SubseqOf(Listing(w, dir, pattern, matches), w.order)
    ensures NoDup(w.order) ==> NoDup(Listing(w, dir, pattern, matches))
  {
    if pattern.Str? {
      SubseqTrans(Listing(w, dir, pattern, matches), Children(w, dir), w.order);
    }
    if NoDup(w.order) {
      SubseqNoDup(Listing(w, dir, pattern, matches), w.order);
    }
  }

  /** Writing a node never puts a path into the listing order twice. */
  lemma PutKeepsNoDup(w: World, p: Path, n: Node)
    requires NoDup(w.order)
    ensures NoDup(Put(w, p, n).order)
  {
    if p !in w.order {
      AppendNoDup(w.order, p);
    }
  }

  lemma {:induction false} AppendNoDup<T>(s: seq<T>, x: T)
    requires NoDup(s) && x !in s
    ensures NoDup(s + [x])
  {
    if s != [] {
      assert (s + [x])[1..] == s[1..] + [x];
      AppendNoDup(s[1..], x);
    }
  }

  /** newLocation.copyFrom(file, SELECT_SELF); a null newLocation throws
      before the backend is reached. */
  function CopyOnce(src: Path, dst: Option<Path>): World -> (World, Attempt<(), Exception>)
  {
    (w: World) =>
      if dst.None? then (w, Failure(NullPointerException))
      else
        var (w1, fail) := NextFault(w);
        if fail then (w1, Failure(FileSystemException(BackendFailure)))
        else if !IsFile(w1, src) then (w1, Failure(FileSystemException(NoSuchFile(src))))
        else (Put(w1, dst.value, File(w1.nodes[src].content)), Success(()))
  }

  /** FileObject.createFile(): an empty file. */
  function CreateFileOnce(w: World, p: Path): (World, Result<()>)
  {
    var (w1, fail) := NextFault(w);
    if fail then (w1, Throws(FileSystemException(BackendFailure)))
    else (Put(w1, p, File([])), Ok(()))
  }

  /** FileObject.createFolder(): nothing to do for a folder, refused over a file. */
  function CreateFolderOnce(w: World, p: Path): (World, Result<()>)
  {
    var (w1, fail) := NextFault(w);
    if fail then (w1, Throws(FileSystemException(BackendFailure)))
    else if IsFolder(w1, p) then (w1, Ok(()))
    else if IsFile(w1, p) then (w1, Throws(FileSystemException(FolderCreation(p))))
    else (Put(w1, p, Folder), Ok(()))
  }

  /** FileObject.delete(): removes the node; a missing node is no error. */
  function DeleteOnce(w: World, p: Path): (World, Result<()>)
  {
    var (w1, fail) := NextFault(w);
    if fail then (w1, Throws(FileSystemException(BackendFailure))) else (Remove(w1, p), Ok(()))
  }

  /* ----- Relations between a world and a later one. ----- */

  predicate SameAt(w: World, w': World, p: Path)
  {
    (p in w.nodes <==> p in w'.nodes) && (p in w.nodes ==> w.nodes[p] == w'.nodes[p])
  }

  /** Only the paths in `touched` may differ. */
  ghost predicate ChangedOnly(w: World, w': World, touched: set<Path>)
  {
    forall p :: p !in touched ==> SameAt(w, w', p)
  }

  predicate IsSuffix(a: seq<bool>, b: seq<bool>)
  {
    |a| <= |b| && a == b[|b| - |a|..]
  }

  /** The later world has only used up part of the script. */
  predicate Consumes(w: World, w': World)
  {
    IsSuffix(w'.faults, w.faults) && IsSuffix(w'.interrupts, w.interrupts)
  }

  /** What every step of the engine keeps: it consumes the script and
      changes at most the touched paths. */
  ghost predicate Evolves(w: World, w': World, touched: set<Path>)
  {
    Consumes(w, w') && ChangedOnly(w, w', touched)
  }

  lemma EvolvesTransitive(w1: World, w2: World, w3: World, t1: set<Path>, t2: set<Path>)
    requires Evolves(w1, w2, t1) && Evolves(w2, w3, t2)
    ensures Evolves(w1, w3, t1 + t2)
  {
    assert w3.faults == w1.faults[|w1.faults| - |w3.faults|..];
    assert w3.interrupts == w1.interrupts[|w1.interrupts| - |w3.interrupts|..];
    forall p | p !in t1 + t2
      ensures SameAt(w1, w3, p)
    {
      assert SameAt(w1, w2, p) && SameAt(w2, w3, p);
    }
  }

  lemma ConsumesTransitive(w1: World, w2: World, w3: World)
    requires Consumes(w1, w2) && Consumes(w2, w3)
    ensures Consumes(w1, w3)
  {
    assert w3.faults == w1.faults[|w1.faults| - |w3.faults|..];
    assert w3.interrupts == w1.interrupts[|w1.interrupts| - |w3.interrupts|..];
  }

  /** A step that consumes the script and keeps every node changes nothing that counts. */
  lemma SameNodesEvolve(w: World, w': World, touched: set<Path>)
    requires Consumes(w, w') && w'.nodes == w.nodes
    ensures Evolves(w, w', touched)
  {
  }

  /** A step that consumes the script and rewrites one node changes only that path. */
  lemma OneNodeEvolves(w: World, w': World, p: Path)
    requires Consumes(w, w') && p in w'.nodes && w'.nodes == w.nodes[p := w'.nodes[p]]
    ensures Evolves(w, w', {p})
  {
    forall q | q !in {p} ensures SameAt(w, w', q) {
      assert q != p;
    }
  }

  lemma EvolvesWider(w1: World, w2: World, t1: set<Path>, t2: set<Path>)
    requires Evolves(w1, w2, t1) && t1 <= t2
    ensures Evolves(w1, w2, t2)
  {
  }

  /** A well-behaved environment: no call fails and no wait is interrupted. */
  predicate Calm(w: World)
  {
    (forall i :: 0 <= i < |w.faults| ==> !w.faults[i]) &&
    (forall i :: 0 <= i < |w.interrupts| ==> !w.interrupts[i])
  }

  lemma CalmStaysCalm(w: World, w': World)
    requires Calm(w) && Consumes(w, w')
    ensures Calm(w')
  {
    forall i | 0 <= i < |w'.faults| ensures !w'.faults[i] {
      assert w'.faults[i] == w.faults[|w.faults| - |w'.faults| + i];
    }
    forall i | 0 <= i < |w'.interrupts| ensures !w'.interrupts[i] {
      assert w'.interrupts[i] == w.interrupts[|w.interrupts| - |w'.interrupts| + i];
    }
  }

  lemma NextFaultConsumes(w: World)
    ensures Consumes(w, NextFault(w).0)
    ensures NextFault(w).0.nodes == w.nodes && NextFault(w).0.order == w.order
  {
  }

  /** Each single call that writes evolves the world within its own path. */
  lemma CopyEvolves(w: World, src: Path, dst: Option<Path>)
    ensures dst.Some? ==> Evolves(w, CopyOnce(src, dst)(w).0, {dst.value})
    ensures dst.None? ==> CopyOnce(src, dst)(w).0 == w
  {
    if dst.Some? {
      NextFaultConsumes(w);
      var w1 := NextFault(w).0;
      var w' := CopyOnce(src, dst)(w).0;
      if !NextFault(w).1 && IsFile(w1, src) {
        assert w' == Put(w1, dst.value, File(w1.nodes[src].content));
        forall q | q != dst.value ensures SameAt(w, w', q) {
          assert SameAt(w1, w', q);
        }
      } else {
        assert w' == w1;
      }
    }
  }

  lemma CreateFileEvolves(w: World, p: Path)
    ensures Evolves(w, CreateFileOnce(w, p).0, {p})
  {
    NextFaultConsumes(w);
  }

  lemma CreateFolderEvolves(w: World, p: Path)
    ensures Evolves(w, CreateFolderOnce(w, p).0, {p})
  {
    NextFaultConsumes(w);
    var w1 := NextFault(w).0;
    var w' := CreateFolderOnce(w, p).0;
    assert w' == w1 || w' == Put(w1, p, Folder);
    forall q | q != p ensures SameAt(w, w', q) {
      assert SameAt(w1, w', q);
    }
  }

  lemma DeleteEvolves(w: World, p: Path)
    ensures Evolves(w, DeleteOnce(w, p).0, {p})
  {
    NextFaultConsumes(w);
  }

  /** In a calm world every single call succeeds. */
  lemma CalmPrimitives(w: World, path: string, dir: Path, pattern: JString,
                       matches: (string, string) -> bool, src: Path, dst: Path)
    requires Calm(w)
    ensures ResolveOnce(Str(path))(w).1 == Success(path)
    ensures ListOnce(dir, pattern, matches)(w).1.Success?
    ensures IsFile(w, src) ==> CopyOnce(src, Some(dst))(w).1.Success?
    ensures CreateFileOnce(w, src).1.Ok?
    ensures DeleteOnce(w, src).1.Ok?
    ensures !IsFile(w, src) ==> CreateFolderOnce(w, src).1.Ok?
    ensures Sleep(0)(w).1 == Woke
  {
    if w.faults != [] { assert !w.faults[0]; }
    if w.interrupts != [] { assert !w.interrupts[0]; }
  }
}
