/** The template copier of src/fs_copy.rs: exclude patterns compiled into a
    glob set, a skip predicate over relative paths, and one walk of the source
    tree that prunes skipped directories, rejects symbolic links, creates
    directories and copies files byte for byte into the destination. */
module FsCopy {
  import opened Errors
  import opened Text
  import opened FileSystem

  /** The `globset` crate, which this model does not look into: which pattern
      strings compile, whether a builder holding those patterns builds, and
      which compiled pattern matches which text. */
  datatype GlobEngine = GlobEngine(valid: string -> bool, buildable: seq<string> -> bool,
                                   matches: (string, string) -> bool)

  /** A compiled glob set: the patterns it was built from. */
  type GlobSet = seq<string>

  /** `GlobSet::is_match`: some pattern of the set matches the text. */
  predicate IsMatch(engine: GlobEngine, gs: GlobSet, text: string)
  {
    exists i :: 0 <= i < |gs| && engine.matches(gs[i], text)
  }

  /** Every pattern compiles and the set of them builds. */
  predicate Compiles(patterns: seq<string>, engine: GlobEngine)
  {
    (forall i :: 0 <= i < |patterns| ==> engine.valid(patterns[i])) && engine.buildable(patterns)
  }

  /** `build_globset`: adds the patterns one by one, stops at the first that
      does not compile, then builds the set. */
  method BuildGlobset(patterns: seq<string>, engine: GlobEngine) returns (r: Result<GlobSet>)
    ensures r.Ok? <==> Compiles(patterns, engine)
    ensures r.Ok? ==> r.value == patterns
    ensures r.Err? && (forall i :: 0 <= i < |patterns| ==> engine.valid(patterns[i]))
        ==> r.error == Context("failed to build exclude patterns", External("globset"))
    ensures r.Err? && !(forall i :: 0 <= i < |patterns| ==> engine.valid(patterns[i]))
        ==> exists i :: (FirstInvalid(patterns, engine, i)
            && r.error == Context("invalid exclude pattern: " + patterns[i], External("globset")))
    ensures r.Err? ==> r.error == GlobsetError(patterns, engine)
  {
    var builder: GlobSet := [];
    for i := 0 to |patterns|
      invariant builder == patterns[..i]
      invariant forall j :: 0 <= j < i ==> engine.valid(patterns[j])
    {
      var pattern := patterns[i];
      if !engine.valid(pattern) {
        assert FirstInvalid(patterns, engine, i);
        assert GlobsetError(patterns, engine) == Context("invalid exclude pattern: " + pattern, External("globset"));
        return Err(Context("invalid exclude pattern: " + pattern, External("globset")));
      }
      builder := builder + [pattern];
    }
    assert builder == patterns;
    if !engine.buildable(builder) {
      return Err(Context("failed to build exclude patterns", External("globset")));
    }
    r := Ok(builder);
  }

  predicate FirstInvalid(patterns: seq<string>, engine: GlobEngine, i: int)
  {
    0 <= i < |patterns| && !engine.valid(patterns[i])
    && forall j :: 0 <= j < i ==> engine.valid(patterns[j])
  }

  /** The error `build_globset` reports for patterns that do not compile: the
      first invalid pattern, or, when every pattern is valid, the failed build. */
  function GlobsetError(patterns: seq<string>, engine: GlobEngine): (e: Error)
    ensures (forall i :: 0 <= i < |patterns| ==> engine.valid(patterns[i]))
        ==> e == Context("failed to build exclude patterns", External("globset"))
    ensures forall i :: (FirstInvalid(patterns, engine, i)
        ==> e == Context("invalid exclude pattern: " + patterns[i], External("globset")))
  {
    if patterns == [] then Context("failed to build exclude patterns", External("globset"))
    else if !engine.valid(patterns[0]) then Context("invalid exclude pattern: " + patterns[0], External("globset"))
    else
      var rest := GlobsetError(patterns[1..], engine);
      assert forall i :: FirstInvalid(patterns, engine, i) ==> 0 < i && FirstInvalid(patterns[1..], engine, i - 1);
      rest
  }

  /** One path component is excluded: it is ".git", or a pattern matches it. */
  predicate ComponentExcluded(part: string, gs: GlobSet, engine: GlobEngine)
  {
    part == ".git" || IsMatch(engine, gs, part)
  }

  /** The component loop of `should_skip_entry`, returning at the first
      excluded component. */
  function SkipByComponent(parts: seq<string>, gs: GlobSet, engine: GlobEngine): bool
  {
    if parts == [] then false
    else if parts[0] == ".git" then true
    else if IsMatch(engine, gs, parts[0]) then true
    else SkipByComponent(parts[1..], gs, engine)
  }

  /** `should_skip_entry` on an entry's path relative to the source root; the
      whole relative path is matched as the text "a/b/c". */
  function ShouldSkipEntry(relative: Path, gs: GlobSet, engine: GlobEngine): bool
  {
    SkipByComponent(relative, gs, engine) || IsMatch(engine, gs, Join(relative, "/"))
  }

  lemma {:induction false} SkipByComponentSpec(parts: seq<string>, gs: GlobSet, engine: GlobEngine)
    ensures SkipByComponent(parts, gs, engine)
        <==> exists i :: 0 <= i < |parts| && ComponentExcluded(parts[i], gs, engine)
  {
    if parts != [] {
      SkipByComponentSpec(parts[1..], gs, engine);
      if !ComponentExcluded(parts[0], gs, engine) {
        assert (exists i :: 0 <= i < |parts| && ComponentExcluded(parts[i], gs, engine))
           ==> (exists i :: 0 <= i < |parts[1..]| && ComponentExcluded(parts[1..][i], gs, engine)) by {
          forall i | 0 <= i < |parts| && ComponentExcluded(parts[i], gs, engine)
            ensures 0 <= i - 1 < |parts[1..]| && ComponentExcluded(parts[1..][i - 1], gs, engine)
          {
          }
        }
      } else {
        assert ComponentExcluded(parts[0], gs, engine);
      }
    }
  }

  /** An entry is skipped iff one of its components is ".git" or matches a
      pattern, or its whole relative path matches a pattern. */
  lemma ShouldSkipEntrySpec(relative: Path, gs: GlobSet, engine: GlobEngine)
    ensures ShouldSkipEntry(relative, gs, engine)
        <==> (exists i :: 0 <= i < |relative| && ComponentExcluded(relative[i], gs, engine))
             || IsMatch(engine, gs, Join(relative, "/"))
  {
    SkipByComponentSpec(relative, gs, engine);
  }

  /** ".git" is skipped at any depth, whatever the patterns, even none. */
  lemma GitAlwaysSkipped(relative: Path, i: nat, gs: GlobSet, engine: GlobEngine)
    requires i < |relative| && relative[i] == ".git"
    ensures ShouldSkipEntry(relative, gs, engine)
    ensures ShouldSkipEntry(relative, [], engine)
  {
    assert ComponentExcluded(relative[i], gs, engine);
    assert ComponentExcluded(relative[i], [], engine);
    ShouldSkipEntrySpec(relative, gs, engine);
    ShouldSkipEntrySpec(relative, [], engine);
  }

  /** An entry the walk yields: not the root, and neither it nor any directory
      above it (up to the root) is skipped, since a skipped directory is pruned. */
  ghost predicate Walked(relative: Path, gs: GlobSet, engine: GlobEngine)
  {
    relative != [] && forall k :: 1 <= k <= |relative| ==> !ShouldSkipEntry(relative[..k], gs, engine)
  }

  /** Nothing beneath a skipped directory is walked. */
  lemma PrunedSubtree(dir: Path, relative: Path, gs: GlobSet, engine: GlobEngine)
    requires dir != [] && IsPrefix(dir, relative) && ShouldSkipEntry(dir, gs, engine)
    ensures !Walked(relative, gs, engine)
  {
    assert relative[..|dir|] == dir;
  }

  lemma WalkedStep(relative: Path, gs: GlobSet, engine: GlobEngine)
    requires relative != [] && !ShouldSkipEntry(relative, gs, engine)
    requires Parent(relative) == [] || Walked(Parent(relative), gs, engine)
    ensures Walked(relative, gs, engine)
  {
    forall k | 1 <= k < |relative| ensures !ShouldSkipEntry(relative[..k], gs, engine) {
      assert relative[..k] == Parent(relative)[..k];
    }
    assert relative[..|relative|] == relative;
  }

  lemma WalkedPrefix(tree: map<Path, Node>, relative: Path, j: nat, gs: GlobSet, engine: GlobEngine)
    requires WellFormed(tree) && relative in tree && Walked(relative, gs, engine) && 1 <= j <= |relative|
    ensures relative[..j] in tree && Walked(relative[..j], gs, engine)
  {
    if j < |relative| {
      AncestorIsDir(tree, relative, j);
    } else {
      assert relative[..j] == relative;
    }
    forall k | 1 <= k <= j ensures relative[..j][..k] == relative[..k] { }
  }

  /** The tree below `root`, keyed by paths relative to it. */
  function Subtree(nodes: map<Path, Node>, root: Path): (t: map<Path, Node>)
    ensures forall c :: c in t <==> root + c in nodes
    ensures forall c :: c in t ==> t[c] == nodes[root + c]
  {
    var keys := set p | p in nodes && IsPrefix(root, p) :: p[|root|..];
    assert forall c :: c in keys <==> root + c in nodes by {
      forall c ensures c in keys <==> root + c in nodes {
        if root + c in nodes {
          assert (root + c)[|root|..] == c;
        }
        if c in keys {
          var p :| p in nodes && IsPrefix(root, p) && c == p[|root|..];
          assert p == root + c;
        }
      }
    }
    map c | c in keys :: nodes[root + c]
  }

  lemma SubtreeWellFormed(nodes: map<Path, Node>, root: Path)
    requires WellFormed(nodes) && root in nodes && nodes[root] == Dir
    ensures WellFormed(Subtree(nodes, root))
  {
    var t := Subtree(nodes, root);
    assert root + [] == root;
    forall c | c in t && c != [] ensures Parent(c) in t && t[Parent(c)] == Dir {
      assert Parent(root + c) == root + Parent(c);
    }
  }

  /** The source tree the walk sees: the source subtree once the destination exists. */
  ghost function Snapshot(nodes: map<Path, Node>, source: Path, dest: Path): map<Path, Node>
  {
    Subtree(WithDirs(nodes, dest), source)
  }

  function Children(tree: map<Path, Node>, relative: Path): set<Path>
  {
    set c | c in tree && c != [] && Parent(c) == relative
  }

  /** A walked entry is in place at the destination: a directory as a
      directory, a file with the same bytes. */
  ghost predicate Placed(nodes: map<Path, Node>, at: Path, n: Node)
  {
    at in nodes && (n.Dir? ==> nodes[at] == Dir) && (n.File? ==> nodes[at] == n)
  }

  ghost predicate Touched(before: map<Path, Node>, after: map<Path, Node>, p: Path)
  {
    p in after && (p !in before || after[p] != before[p])
  }

  /** Every walked entry is either handled or lies below an entry still pending. */
  ghost predicate Covered(tree: map<Path, Node>, pending: set<Path>, popped: set<Path>, gs: GlobSet, engine: GlobEngine)
  {
    forall e :: e in tree && Walked(e, gs, engine) ==> e in popped || exists k :: 0 <= k <= |e| && e[..k] in pending
  }

  lemma CoveredAfterPrune(tree: map<Path, Node>, pending: set<Path>, popped: set<Path>, rel: Path, gs: GlobSet, engine: GlobEngine)
    requires Covered(tree, pending, popped, gs, engine) && rel in pending && rel != [] && ShouldSkipEntry(rel, gs, engine)
    ensures Covered(tree, pending - {rel}, popped + {rel}, gs, engine)
  {
    forall e | e in tree && Walked(e, gs, engine) && e !in popped + {rel}
      ensures exists k :: 0 <= k <= |e| && e[..k] in pending - {rel}
    {
      var k :| 0 <= k <= |e| && e[..k] in pending;
      if e[..k] == rel {
        PrunedSubtree(rel, e, gs, engine);
      }
    }
  }

  lemma CoveredAfterFile(tree: map<Path, Node>, pending: set<Path>, popped: set<Path>, rel: Path, gs: GlobSet, engine: GlobEngine)
    requires WellFormed(tree) && Covered(tree, pending, popped, gs, engine) && rel in pending && rel in tree && tree[rel] != Dir
    ensures Covered(tree, pending - {rel}, popped + {rel}, gs, engine)
  {
    forall e | e in tree && Walked(e, gs, engine) && e !in popped + {rel}
      ensures exists k :: 0 <= k <= |e| && e[..k] in pending - {rel}
    {
      var k :| 0 <= k <= |e| && e[..k] in pending;
      assert e[..|e|] == e;
      if e[..k] == rel && k < |e| {
        AncestorIsDir(tree, e, k);
      }
    }
  }

  lemma CoveredAfterDescend(tree: map<Path, Node>, pending: set<Path>, popped: set<Path>, rel: Path, gs: GlobSet, engine: GlobEngine)
    requires WellFormed(tree) && Covered(tree, pending, popped, gs, engine) && rel in pending && rel in tree
    ensures Covered(tree, pending - {rel} + Children(tree, rel), popped + {rel}, gs, engine)
  {
    var pending' := pending - {rel} + Children(tree, rel);
    forall e | e in tree && Walked(e, gs, engine) && e !in popped + {rel}
      ensures exists k :: 0 <= k <= |e| && e[..k] in pending'
    {
      var k :| 0 <= k <= |e| && e[..k] in pending;
      assert e[..|e|] == e;
      if e[..k] == rel && k < |e| {
        {
          if k + 1 < |e| {
            AncestorIsDir(tree, e, k + 1);
          } else {
            assert e[..k + 1] == e;
          }
          assert Parent(e[..k + 1]) == e[..k];
          assert e[..k + 1] in Children(tree, rel);
        }
      }
    }
  }

  /** Where the copy may change the file system: on the way down to the
      destination, or at the place of a walked entry below it. */
  ghost predicate InScope(tree: map<Path, Node>, dest: Path, p: Path, gs: GlobSet, engine: GlobEngine)
  {
    IsPrefix(p, dest) || (IsPrefix(dest, p) && p[|dest|..] in tree && Walked(p[|dest|..], gs, engine))
  }

  /** Creating the directories down to `dest + x`, for the root or a walked
      entry `x`, stays in scope. */
  lemma DirsInScope(tree: map<Path, Node>, dest: Path, x: Path, q: Path, gs: GlobSet, engine: GlobEngine)
    requires WellFormed(tree) && (x == [] || (x in tree && Walked(x, gs, engine)))
    requires IsPrefix(q, dest + x)
    ensures InScope(tree, dest, q, gs, engine)
  {
    if |q| <= |dest| {
      assert q == (dest + x)[..|q|] == dest[..|q|];
    } else {
      var j := |q| - |dest|;
      assert q[|dest|..] == x[..j];
      assert q[..|dest|] == dest;
      WalkedPrefix(tree, x, j, gs, engine);
    }
  }

  /** Every path of `before` is still present in `after`: the copy never
      removes anything. */
  ghost predicate Kept(before: map<Path, Node>, after: map<Path, Node>)
  {
    forall p :: p in before ==> p in after
  }

  /** Nothing of `before` is removed, and only `at` may have changed. */
  ghost predicate ChangedOnlyAt(before: map<Path, Node>, after: map<Path, Node>, at: Path)
  {
    forall p :: p in before ==> p in after && (p != at ==> after[p] == before[p])
  }

  /** Every path created or changed between `before` and `after` is in scope. */
  ghost predicate Scoped(before: map<Path, Node>, after: map<Path, Node>, tree: map<Path, Node>, dest: Path,
                         gs: GlobSet, engine: GlobEngine)
  {
    forall p :: Touched(before, after, p) ==> InScope(tree, dest, p, gs, engine)
  }

  /** Every walked entry of `done` is no symbolic link and is in place below
      `dest`. */
  ghost predicate AllPlaced(nodes: map<Path, Node>, tree: map<Path, Node>, done: set<Path>, dest: Path,
                            gs: GlobSet, engine: GlobEngine)
  {
    forall c :: c in done && c in tree && Walked(c, gs, engine) ==> tree[c] != Symlink && Placed(nodes, dest + c, tree[c])
  }

  /** The walk reaches a symbolic link. */
  ghost predicate ReachesSymlink(tree: map<Path, Node>, gs: GlobSet, engine: GlobEngine)
  {
    exists rel :: rel in tree && Walked(rel, gs, engine) && tree[rel] == Symlink
  }

  lemma KeptTrans(a: map<Path, Node>, b: map<Path, Node>, c: map<Path, Node>)
    requires Kept(a, b) && Kept(b, c)
    ensures Kept(a, c)
  {
  }

  lemma ScopedTrans(a: map<Path, Node>, b: map<Path, Node>, c: map<Path, Node>, tree: map<Path, Node>, dest: Path,
                    gs: GlobSet, engine: GlobEngine)
    requires Scoped(a, b, tree, dest, gs, engine) && Scoped(b, c, tree, dest, gs, engine)
    ensures Scoped(a, c, tree, dest, gs, engine)
  {
    forall p | Touched(a, c, p) ensures InScope(tree, dest, p, gs, engine) {
      if !Touched(b, c, p) {
        assert Touched(a, b, p);
      }
    }
  }

  /** Creating the destination's own directories is in scope. */
  lemma DestInScope(before: map<Path, Node>, tree: map<Path, Node>, dest: Path, gs: GlobSet, engine: GlobEngine)
    requires WellFormed(before) && WellFormed(tree) && DirsCreatable(before, dest)
    ensures Kept(before, WithDirs(before, dest))
    ensures Scoped(before, WithDirs(before, dest), tree, dest, gs, engine)
  {
    AddDirsSpec(before, dest, |dest|);
    forall p | Touched(before, WithDirs(before, dest), p) ensures InScope(tree, dest, p, gs, engine) {
      DirsInScope(tree, dest, [], p, gs, engine);
    }
  }

  /** `copy_template`. The walk is modelled on the source tree as it stands once
      the destination has been created, in any order that visits a directory
      before its entries. */
  method CopyTemplate(fs: FileSystem, source: Path, dest: Path, exclude: seq<string>, engine: GlobEngine)
    returns (r: Result<()>)
    requires fs.Valid()
    modifies fs
    ensures fs.Valid()
    // A source that is not a directory fails before the destination is created.
    ensures !old(fs.IsDir(source))
        ==> r == Err(Message("source is not a directory: " + Display(source))) && fs.nodes == old(fs.nodes)
    ensures old(fs.IsDir(source)) && !DirsCreatable(old(fs.nodes), dest)
        ==> r.Err? && r.error.Context? && r.error.context == "failed to create destination: " + Display(dest)
            && fs.nodes == old(fs.nodes)
    // Patterns that do not compile fail before any entry is copied, once the
    // destination exists.
    ensures old(fs.IsDir(source)) && DirsCreatable(old(fs.nodes), dest) && !Compiles(exclude, engine)
        ==> r == Err(GlobsetError(exclude, engine)) && fs.nodes == WithDirs(old(fs.nodes), dest)
    // No node is ever removed, and only the destination, its ancestors and
    // copies of walked entries change.
    ensures Kept(old(fs.nodes), fs.nodes)
    ensures Scoped(old(fs.nodes), fs.nodes, Snapshot(old(fs.nodes), source, dest), dest, exclude, engine)
    // On success there was no walked symbolic link, and every walked entry is in place.
    ensures r.Ok? ==> old(fs.IsDir(source)) && Compiles(exclude, engine)
    ensures r.Ok? ==> var tree := Snapshot(old(fs.nodes), source, dest);
      AllPlaced(fs.nodes, tree, tree.Keys, dest, exclude, engine)
    // A symbolic link fails the copy only if the walk reaches it.
    ensures r == Err(Templative(SymlinkNotSupported)) ==> ReachesSymlink(Snapshot(old(fs.nodes), source, dest), exclude, engine)
    // Into a destination with nothing below it yet, the copy succeeds unless
    // the walk reaches a symbolic link, and then it fails with
    // `SymlinkNotSupported`; a link in a pruned subtree does no harm.
    ensures old(fs.IsDir(source)) && DirsCreatable(old(fs.nodes), dest) && Compiles(exclude, engine)
            && FreshDestination(old(fs.nodes), dest)
        ==> r == if ReachesSymlink(Snapshot(old(fs.nodes), source, dest), exclude, engine)
                 then Err(Templative(SymlinkNotSupported)) else Ok(())
  {
    if !fs.IsDir(source) {
      return Err(Message("source is not a directory: " + Display(source)));
    }
    var created := fs.CreateDirAll(dest);
    if created.Err? {
      return Err(Context("failed to create destination: " + Display(dest), created.error));
    }
    AddDirsSpec(old(fs.nodes), dest, |dest|);
    var tree := Subtree(fs.nodes, source);
    SubtreeWellFormed(fs.nodes, source);
    DestInScope(old(fs.nodes), tree, dest, exclude, engine);
    if FreshDestination(old(fs.nodes), dest) {
      FreshIsMirrored(old(fs.nodes), tree, dest);
    }
    var built := BuildGlobset(exclude, engine);
    if built.Err? {
      return built.PropagateFailure();
    }
    var globset := built.value;
    ghost var start := fs.nodes;
    r := Walk(fs, tree, source, dest, globset, engine);
    KeptTrans(old(fs.nodes), start, fs.nodes);
    ScopedTrans(old(fs.nodes), start, fs.nodes, tree, dest, globset, engine);
  }

  /** The walk's work list: `pending` entries are yet to be yielded, `popped`
      ones were yielded or pruned; both lie in the tree, every entry below the
      root sits in a popped directory, a pending entry's directory was walked,
      and every walked entry is popped or below a pending one. */
  ghost predicate Frontier(tree: map<Path, Node>, pending: set<Path>, popped: set<Path>, gs: GlobSet, engine: GlobEngine)
  {
    Linked(tree, pending, popped, gs, engine) && Covered(tree, pending, popped, gs, engine)
  }

  ghost predicate Linked(tree: map<Path, Node>, pending: set<Path>, popped: set<Path>, gs: GlobSet, engine: GlobEngine)
  {
    && (forall c :: c in pending + popped ==> c in tree)
    && pending !! popped
    && (forall c :: c in pending + popped && c != [] ==> Parent(c) in popped && tree[Parent(c)] == Dir)
    && (forall c :: c in pending && c != [] ==> Parent(c) == [] || Walked(Parent(c), gs, engine))
  }

  /** What the walk has done to the file system so far: nothing was removed,
      only in-scope paths changed, and every popped walked entry is in place. */
  ghost predicate Progress(nodes: map<Path, Node>, start: map<Path, Node>, tree: map<Path, Node>, popped: set<Path>,
                           dest: Path, gs: GlobSet, engine: GlobEngine)
  {
    Kept(start, nodes) && Scoped(start, nodes, tree, dest, gs, engine) && AllPlaced(nodes, tree, popped, dest, gs, engine)
  }

  /** The loop's measure shrinks: fewer undiscovered entries, or as many and
      fewer pending ones. */
  ghost predicate Shrinks(tree: map<Path, Node>, pending: set<Path>, popped: set<Path>, pending': set<Path>, popped': set<Path>)
  {
    || tree.Keys - (pending' + popped') < tree.Keys - (pending + popped)
    || (tree.Keys - (pending' + popped') == tree.Keys - (pending + popped) && pending' < pending)
  }

  lemma FrontierAfterPrune(tree: map<Path, Node>, pending: set<Path>, popped: set<Path>, rel: Path, gs: GlobSet, engine: GlobEngine)
    requires Frontier(tree, pending, popped, gs, engine) && rel in pending && rel != [] && ShouldSkipEntry(rel, gs, engine)
    ensures Frontier(tree, pending - {rel}, popped + {rel}, gs, engine)
    ensures Shrinks(tree, pending, popped, pending - {rel}, popped + {rel})
  {
    CoveredAfterPrune(tree, pending, popped, rel, gs, engine);
    assert (pending - {rel}) + (popped + {rel}) == pending + popped;
  }

  lemma FrontierAfterFile(tree: map<Path, Node>, pending: set<Path>, popped: set<Path>, rel: Path, gs: GlobSet, engine: GlobEngine)
    requires WellFormed(tree) && Frontier(tree, pending, popped, gs, engine) && rel in pending && tree[rel] != Dir
    ensures Frontier(tree, pending - {rel}, popped + {rel}, gs, engine)
    ensures Shrinks(tree, pending, popped, pending - {rel}, popped + {rel})
  {
    CoveredAfterFile(tree, pending, popped, rel, gs, engine);
    assert (pending - {rel}) + (popped + {rel}) == pending + popped;
  }

  lemma FrontierAfterDescend(tree: map<Path, Node>, pending: set<Path>, popped: set<Path>, rel: Path, gs: GlobSet, engine: GlobEngine)
    requires WellFormed(tree) && Frontier(tree, pending, popped, gs, engine) && rel in pending && tree[rel] == Dir
    requires rel == [] || Walked(rel, gs, engine)
    ensures Frontier(tree, pending - {rel} + Children(tree, rel), popped + {rel}, gs, engine)
    ensures Shrinks(tree, pending, popped, pending - {rel} + Children(tree, rel), popped + {rel})
  {
    CoveredAfterDescend(tree, pending, popped, rel, gs, engine);
    LinkedAfterDescend(tree, pending, popped, rel, gs, engine);
    ChildrenUnseen(tree, pending, popped, rel);
    DescendShrinks(tree, pending, popped, rel);
  }

  lemma LinkedAfterDescend(tree: map<Path, Node>, pending: set<Path>, popped: set<Path>, rel: Path, gs: GlobSet, engine: GlobEngine)
    requires Linked(tree, pending, popped, gs, engine) && rel in pending && tree[rel] == Dir
    requires rel == [] || Walked(rel, gs, engine)
    ensures Linked(tree, pending - {rel} + Children(tree, rel), popped + {rel}, gs, engine)
  {
    ChildrenUnseen(tree, pending, popped, rel);
  }

  lemma DescendShrinks(tree: map<Path, Node>, pending: set<Path>, popped: set<Path>, rel: Path)
    requires rel in pending && pending !! popped
    requires Children(tree, rel) !! (pending + popped)
    ensures Shrinks(tree, pending, popped, pending - {rel} + Children(tree, rel), popped + {rel})
  {
    var kids := Children(tree, rel);
    var pending', popped' := pending - {rel} + kids, popped + {rel};
    assert pending' + popped' == pending + popped + kids;
    if kids == {} {
      assert pending' == pending - {rel};
    } else {
      var c :| c in kids;
      assert c in tree.Keys - (pending + popped);
      assert c !in tree.Keys - (pending' + popped');
    }
  }

  lemma ProgressAfterEntry(nodes: map<Path, Node>, nodes': map<Path, Node>, start: map<Path, Node>, tree: map<Path, Node>,
                           popped: set<Path>, rel: Path, dest: Path, gs: GlobSet, engine: GlobEngine)
    requires Progress(nodes, start, tree, popped, dest, gs, engine) && rel !in popped
    requires ChangedOnlyAt(nodes, nodes', dest + rel) && Scoped(nodes, nodes', tree, dest, gs, engine)
    requires rel in tree && tree[rel] != Symlink && Placed(nodes', dest + rel, tree[rel])
    ensures Progress(nodes', start, tree, popped + {rel}, dest, gs, engine)
  {
    KeptTrans(start, nodes, nodes');
    ScopedTrans(start, nodes, nodes', tree, dest, gs, engine);
    forall c | c in popped + {rel} && c in tree && Walked(c, gs, engine)
      ensures tree[c] != Symlink && Placed(nodes', dest + c, tree[c])
    {
      if c != rel {
        assert dest + c != dest + rel by {
          assert (dest + c)[|dest|..] == c;
        }
      }
    }
  }

  lemma ProgressAfterSkip(nodes: map<Path, Node>, start: map<Path, Node>, tree: map<Path, Node>, popped: set<Path>,
                          rel: Path, dest: Path, gs: GlobSet, engine: GlobEngine)
    requires Progress(nodes, start, tree, popped, dest, gs, engine)
    requires rel == [] || ShouldSkipEntry(rel, gs, engine)
    ensures Progress(nodes, start, tree, popped + {rel}, dest, gs, engine)
  {
    if rel != [] {
      assert rel[..|rel|] == rel;
    }
  }

  /** Once nothing is pending, every walked entry was handled. */
  lemma WalkDone(nodes: map<Path, Node>, tree: map<Path, Node>, popped: set<Path>, dest: Path, gs: GlobSet, engine: GlobEngine)
    requires Covered(tree, {}, popped, gs, engine) && AllPlaced(nodes, tree, popped, dest, gs, engine)
    ensures AllPlaced(nodes, tree, tree.Keys, dest, gs, engine)
  {
  }

  /** The `for entry in walker` loop, with `filter_entry` pruning skipped
      entries before their children are read. */
  method Walk(fs: FileSystem, tree: map<Path, Node>, source: Path, dest: Path, globset: GlobSet, engine: GlobEngine)
    returns (r: Result<()>)
    requires fs.Valid() && WellFormed(tree)
    modifies fs
    ensures fs.Valid()
    ensures Kept(old(fs.nodes), fs.nodes) && Scoped(old(fs.nodes), fs.nodes, tree, dest, globset, engine)
    ensures r.Ok? ==> AllPlaced(fs.nodes, tree, tree.Keys, dest, globset, engine)
    ensures r == Err(Templative(SymlinkNotSupported)) ==> ReachesSymlink(tree, globset, engine)
    // When the destination holds only copies of the tree, only a walked link fails.
    ensures Mirrored(old(fs.nodes), tree, dest)
        ==> r == if ReachesSymlink(tree, globset, engine) then Err(Templative(SymlinkNotSupported)) else Ok(())
  {
    var pending: set<Path> := {[]};
    ghost var popped: set<Path> := {};
    ghost var mirrored := Mirrored(fs.nodes, tree, dest);
    forall e | e in tree && Walked(e, globset, engine) ensures e[..0] in pending {
      assert e[..0] == [];
    }
    while pending != {}
      invariant fs.Valid()
      invariant Frontier(tree, pending, popped, globset, engine)
      invariant Progress(fs.nodes, old(fs.nodes), tree, popped, dest, globset, engine)
      invariant mirrored ==> Mirrored(fs.nodes, tree, dest)
      decreases tree.Keys - (pending + popped), pending
    {
      var rel :| rel in pending;
      if rel != [] && ShouldSkipEntry(rel, globset, engine) {
        // `filter_entry` prunes the entry and everything below it.
        FrontierAfterPrune(tree, pending, popped, rel, globset, engine);
        ProgressAfterSkip(fs.nodes, old(fs.nodes), tree, popped, rel, dest, globset, engine);
        pending, popped := pending - {rel}, popped + {rel};
        continue;
      }
      if rel == [] {
        // The source root is never filtered and never copied.
        FrontierAfterDescend(tree, pending, popped, rel, globset, engine);
        ProgressAfterSkip(fs.nodes, old(fs.nodes), tree, popped, rel, dest, globset, engine);
        pending, popped := pending - {rel} + Children(tree, rel), popped + {rel};
        continue;
      }
      WalkedStep(rel, globset, engine);
      if tree[rel] == Symlink {
        return Err(Templative(SymlinkNotSupported));
      }
      ghost var before := fs.nodes;
      r := CopyEntry(fs, tree, source, dest, rel, globset, engine);
      if r.Err? {
        return;
      }
      ProgressAfterEntry(before, fs.nodes, old(fs.nodes), tree, popped, rel, dest, globset, engine);
      if tree[rel] == Dir {
        FrontierAfterDescend(tree, pending, popped, rel, globset, engine);
        pending, popped := pending - {rel} + Children(tree, rel), popped + {rel};
      } else {
        FrontierAfterFile(tree, pending, popped, rel, globset, engine);
        pending, popped := pending - {rel}, popped + {rel};
      }
    }
    WalkDone(fs.nodes, tree, popped, dest, globset, engine);
    r := Ok(());
    PlacedHasNoSymlink(fs.nodes, tree, dest, globset, engine);
  }

  /** The body of the loop for one walked entry that is not a symbolic link: a
      directory is created, a file's parent is created and the file copied. */
  method CopyEntry(fs: FileSystem, tree: map<Path, Node>, source: Path, dest: Path, rel: Path, globset: GlobSet, engine: GlobEngine)
    returns (r: Result<()>)
    requires fs.Valid() && WellFormed(tree)
    requires rel in tree && Walked(rel, globset, engine) && tree[rel] != Symlink
    modifies fs
    ensures fs.Valid()
    ensures ChangedOnlyAt(old(fs.nodes), fs.nodes, dest + rel)
    ensures Scoped(old(fs.nodes), fs.nodes, tree, dest, globset, engine)
    ensures r.Ok? ==> Placed(fs.nodes, dest + rel, tree[rel])
    ensures r.Err? ==> r.error.Context?
    ensures Mirrored(old(fs.nodes), tree, dest) ==> r.Ok? && Mirrored(fs.nodes, tree, dest)
  {
    if tree[rel] == Dir {
      r := CopyDir(fs, tree, dest, rel, globset, engine);
    } else {
      r := CopyFile(fs, tree, source, dest, rel, globset, engine);
    }
  }

  /** `create_dir_all(&dest_path)` for a walked directory. */
  method CopyDir(fs: FileSystem, tree: map<Path, Node>, dest: Path, rel: Path, globset: GlobSet, engine: GlobEngine)
    returns (r: Result<()>)
    requires fs.Valid() && WellFormed(tree)
    requires rel in tree && Walked(rel, globset, engine) && tree[rel] == Dir
    modifies fs
    ensures fs.Valid()
    ensures ChangedOnlyAt(old(fs.nodes), fs.nodes, dest + rel)
    ensures Scoped(old(fs.nodes), fs.nodes, tree, dest, globset, engine)
    ensures r.Ok? ==> Placed(fs.nodes, dest + rel, tree[rel])
    ensures r.Err? ==> r.error.Context?
    ensures Mirrored(old(fs.nodes), tree, dest) ==> r.Ok? && Mirrored(fs.nodes, tree, dest)
  {
    var destPath := dest + rel;
    if Mirrored(fs.nodes, tree, dest) {
      MirroredDirs(fs.nodes, tree, dest, rel);
    }
    var made := fs.CreateDirAll(destPath);
    if made.Err? {
      return Err(Context("failed to create dir: " + Display(destPath), made.error));
    }
    WalkedDirsInScope(old(fs.nodes), tree, dest, rel, globset, engine);
    r := Ok(());
  }

  /** `create_dir_all(parent)` then `fs::copy` for a walked regular file. */
  method CopyFile(fs: FileSystem, tree: map<Path, Node>, source: Path, dest: Path, rel: Path, globset: GlobSet, engine: GlobEngine)
    returns (r: Result<()>)
    requires fs.Valid() && WellFormed(tree)
    requires rel in tree && Walked(rel, globset, engine) && tree[rel].File?
    modifies fs
    ensures fs.Valid()
    ensures ChangedOnlyAt(old(fs.nodes), fs.nodes, dest + rel)
    ensures Scoped(old(fs.nodes), fs.nodes, tree, dest, globset, engine)
    ensures r.Ok? ==> Placed(fs.nodes, dest + rel, tree[rel])
    ensures r.Err? ==> r.error.Context?
    ensures Mirrored(old(fs.nodes), tree, dest) ==> r.Ok? && Mirrored(fs.nodes, tree, dest)
  {
    var destPath := dest + rel;
    var parent := Parent(destPath);
    ghost var mirrored := Mirrored(fs.nodes, tree, dest);
    if mirrored {
      MirroredParent(fs.nodes, tree, dest, rel);
    }
    var made := fs.CreateDirAll(parent);
    if made.Err? {
      return Err(Context("failed to create parent: " + Display(parent), made.error));
    }
    if mirrored {
      MirroredWritable(fs.nodes, tree, dest, rel);
    }
    ParentInScope(old(fs.nodes), tree, dest, rel, globset, engine);
    ghost var mid := fs.nodes;
    var copied := fs.WriteFile(destPath, tree[rel].bytes);
    if copied.Err? {
      return Err(Context("failed to copy " + Display(source + rel) + " -> " + Display(destPath), copied.error));
    }
    WriteInScope(old(fs.nodes), mid, tree, dest, rel, globset, engine);
    r := Ok(());
  }

  /** Writing a walked file's copy after its parents were created changes only
      that copy, which is in scope. */
  lemma WriteInScope(before: map<Path, Node>, mid: map<Path, Node>, tree: map<Path, Node>, dest: Path, rel: Path,
                     gs: GlobSet, engine: GlobEngine)
    requires ChangedOnlyAt(before, mid, dest + rel) && Scoped(before, mid, tree, dest, gs, engine)
    requires rel in tree && Walked(rel, gs, engine) && tree[rel].File?
    ensures ChangedOnlyAt(before, mid[dest + rel := tree[rel]], dest + rel)
    ensures Scoped(before, mid[dest + rel := tree[rel]], tree, dest, gs, engine)
    ensures Placed(mid[dest + rel := tree[rel]], dest + rel, tree[rel])
  {
    var after := mid[dest + rel := tree[rel]];
    assert InScope(tree, dest, dest + rel, gs, engine) by {
      assert (dest + rel)[|dest|..] == rel;
    }
    assert Scoped(mid, after, tree, dest, gs, engine);
    ScopedTrans(before, mid, after, tree, dest, gs, engine);
  }

  /** Creating a walked directory's destination and its ancestors stays in
      scope and changes no existing node other than the destination. */
  lemma WalkedDirsInScope(before: map<Path, Node>, tree: map<Path, Node>, dest: Path, rel: Path, gs: GlobSet, engine: GlobEngine)
    requires WellFormed(before) && WellFormed(tree) && DirsCreatable(before, dest + rel)
    requires rel in tree && Walked(rel, gs, engine) && tree[rel] == Dir
    ensures ChangedOnlyAt(before, WithDirs(before, dest + rel), dest + rel)
    ensures Scoped(before, WithDirs(before, dest + rel), tree, dest, gs, engine)
    ensures Placed(WithDirs(before, dest + rel), dest + rel, tree[rel])
  {
    var destPath := dest + rel;
    AddDirsSpec(before, destPath, |destPath|);
    assert destPath[..|destPath|] == destPath;
    forall p | Touched(before, WithDirs(before, destPath), p) ensures InScope(tree, dest, p, gs, engine) {
      DirsInScope(tree, dest, rel, p, gs, engine);
    }
  }

  /** Creating a walked file's parent directories touches only in-scope paths
      and changes no existing node. */
  lemma ParentInScope(before: map<Path, Node>, tree: map<Path, Node>, dest: Path, rel: Path, gs: GlobSet, engine: GlobEngine)
    requires WellFormed(before) && WellFormed(tree) && rel != [] && DirsCreatable(before, Parent(dest + rel))
    requires rel in tree && Walked(rel, gs, engine)
    ensures ChangedOnlyAt(before, WithDirs(before, Parent(dest + rel)), dest + rel)
    ensures Scoped(before, WithDirs(before, Parent(dest + rel)), tree, dest, gs, engine)
  {
    var parent := Parent(dest + rel);
    AddDirsSpec(before, parent, |parent|);
    assert parent == dest + Parent(rel);
    assert Parent(rel) == [] || (Parent(rel) in tree && Walked(Parent(rel), gs, engine)) by {
      if Parent(rel) != [] {
        WalkedPrefix(tree, rel, |rel| - 1, gs, engine);
      }
    }
    forall p | Touched(before, WithDirs(before, parent), p) ensures InScope(tree, dest, p, gs, engine) {
      DirsInScope(tree, dest, Parent(rel), p, gs, engine);
    }
  }

  /** Below `dest` the file system holds only copies of tree entries, and
      `dest` and its ancestors are directories. */
  ghost predicate Mirrored(nodes: map<Path, Node>, tree: map<Path, Node>, dest: Path)
  {
    && (forall k :: 0 <= k <= |dest| ==> dest[..k] in nodes && nodes[dest[..k]] == Dir)
    && (forall p :: p in nodes && |dest| < |p| && p[..|dest|] == dest
          ==> p[|dest|..] in tree && nodes[p] == tree[p[|dest|..]])
  }

  /** Nothing lies below `dest` yet. */
  ghost predicate FreshDestination(nodes: map<Path, Node>, dest: Path)
  {
    forall p :: p in nodes && IsPrefix(dest, p) ==> p == dest
  }

  lemma FreshIsMirrored(nodes: map<Path, Node>, tree: map<Path, Node>, dest: Path)
    requires WellFormed(nodes) && DirsCreatable(nodes, dest) && FreshDestination(nodes, dest)
    ensures Mirrored(WithDirs(nodes, dest), tree, dest)
  {
    AddDirsSpec(nodes, dest, |dest|);
    forall p | p in WithDirs(nodes, dest) && |dest| < |p| ensures p in nodes && p[..|dest|] != dest {
    }
  }

  /** Into a mirrored destination, the directories down to `dest + x`, for the
      root or a directory `x` of the tree, can be created, and the result is
      still mirrored. */
  lemma MirroredDirs(nodes: map<Path, Node>, tree: map<Path, Node>, dest: Path, x: Path)
    requires WellFormed(nodes) && WellFormed(tree) && Mirrored(nodes, tree, dest)
    requires x == [] || (x in tree && tree[x] == Dir)
    ensures DirsCreatable(nodes, dest + x)
    ensures Mirrored(WithDirs(nodes, dest + x), tree, dest)
    ensures dest + x in WithDirs(nodes, dest + x) && WithDirs(nodes, dest + x)[dest + x] == Dir
  {
    var p := dest + x;
    TreePrefixesAreDirs(tree, x);
    forall k | 0 <= k <= |p| && p[..k] in nodes ensures nodes[p[..k]] == Dir {
      if k <= |dest| {
        assert p[..k] == dest[..k];
      } else {
        assert p[..k][|dest|..] == x[..k - |dest|];
      }
    }
    AddDirsSpec(nodes, p, |p|);
    assert p[..|p|] == p;
    MirroredAfterDirs(nodes, WithDirs(nodes, p), tree, dest, x);
  }

  lemma TreePrefixesAreDirs(tree: map<Path, Node>, x: Path)
    requires WellFormed(tree) && (x == [] || (x in tree && tree[x] == Dir))
    ensures forall j :: 0 <= j <= |x| ==> x[..j] in tree && tree[x[..j]] == Dir
  {
    forall j | 0 <= j <= |x| ensures x[..j] in tree && tree[x[..j]] == Dir {
      if j < |x| {
        AncestorIsDir(tree, x, j);
      } else {
        assert x[..j] == x;
      }
    }
  }

  /** Adding directories only along `dest + x` keeps a destination mirrored. */
  lemma MirroredAfterDirs(nodes: map<Path, Node>, after: map<Path, Node>, tree: map<Path, Node>, dest: Path, x: Path)
    requires Mirrored(nodes, tree, dest)
    requires forall j :: 0 <= j <= |x| ==> x[..j] in tree && tree[x[..j]] == Dir
    requires forall q :: q in nodes ==> q in after && after[q] == nodes[q]
    requires forall j :: 0 <= j <= |dest + x| ==> (dest + x)[..j] in after && after[(dest + x)[..j]] == Dir
    requires forall q :: q in after && q !in nodes ==> IsPrefix(q, dest + x)
    ensures Mirrored(after, tree, dest)
  {
    var p := dest + x;
    forall k | 0 <= k <= |dest| ensures dest[..k] in after && after[dest[..k]] == Dir {
      assert dest[..k] == p[..k];
    }
    forall q | q in after && |dest| < |q| && q[..|dest|] == dest
      ensures q[|dest|..] in tree && after[q] == tree[q[|dest|..]]
    {
      if q !in nodes {
        assert q == p[..|q|];
        assert q[|dest|..] == x[..|q| - |dest|];
      }
    }
  }

  /** A walked file's parent can be created in a mirrored destination, which
      stays mirrored. */
  lemma MirroredParent(nodes: map<Path, Node>, tree: map<Path, Node>, dest: Path, rel: Path)
    requires WellFormed(nodes) && WellFormed(tree) && Mirrored(nodes, tree, dest)
    requires rel in tree && rel != []
    ensures DirsCreatable(nodes, Parent(dest + rel))
    ensures Mirrored(WithDirs(nodes, Parent(dest + rel)), tree, dest)
    ensures Parent(dest + rel) in WithDirs(nodes, Parent(dest + rel))
    ensures WithDirs(nodes, Parent(dest + rel))[Parent(dest + rel)] == Dir
  {
    if Parent(rel) != [] {
      AncestorIsDir(tree, rel, |rel| - 1);
    }
    assert dest + Parent(rel) == Parent(dest + rel);
    MirroredDirs(nodes, tree, dest, Parent(rel));
  }

  /** After its parent was created, a walked file's copy can be written into a
      mirrored destination, which stays mirrored. */
  lemma MirroredWritable(nodes: map<Path, Node>, tree: map<Path, Node>, dest: Path, rel: Path)
    requires Mirrored(nodes, tree, dest) && rel in tree && tree[rel].File? && rel != []
    requires Parent(dest + rel) in nodes && nodes[Parent(dest + rel)] == Dir
    ensures Writable(nodes, dest + rel)
    ensures Mirrored(nodes[dest + rel := File(tree[rel].bytes)], tree, dest)
  {
    var p := dest + rel;
    assert p[..|dest|] == dest && p[|dest|..] == rel;
    var after := nodes[p := File(tree[rel].bytes)];
    forall k | 0 <= k <= |dest| ensures dest[..k] in after && after[dest[..k]] == Dir {
      assert dest[..k] != p;
    }
  }

  /** Once every walked entry is in place, none of them is a symbolic link. */
  lemma PlacedHasNoSymlink(nodes: map<Path, Node>, tree: map<Path, Node>, dest: Path, gs: GlobSet, engine: GlobEngine)
    requires AllPlaced(nodes, tree, tree.Keys, dest, gs, engine)
    ensures !ReachesSymlink(tree, gs, engine)
  {
    forall rel | rel in tree && Walked(rel, gs, engine) ensures tree[rel] != Symlink {
      assert rel in tree.Keys;
    }
  }

  lemma ChildrenUnseen(tree: map<Path, Node>, pending: set<Path>, popped: set<Path>, rel: Path)
    requires rel in pending && pending !! popped
    requires forall c :: c in pending + popped && c != [] ==> Parent(c) in popped
    ensures Children(tree, rel) !! (pending + popped)
  {
  }
}
