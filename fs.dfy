/** The file system the commands read and write, as one map from absolute
    paths to nodes. Symbolic links are leaves whose targets are not modelled. */
module FileSystem {
  import opened Errors

  newtype byte = b: int | 0 <= b < 256

  datatype Node = Dir | File(bytes: seq<byte>) | Symlink

  predicate IsPrefix(p: Path, q: Path)
  {
    |p| <= |q| && q[..|p|] == p
  }

  function Parent(p: Path): Path
    requires p != []
  {
    p[..|p| - 1]
  }

  /** The root exists as a directory and every other node sits in a directory. */
  ghost predicate WellFormed(nodes: map<Path, Node>)
  {
    && [] in nodes && nodes[[]] == Dir
    && forall p :: p in nodes && p != [] ==> Parent(p) in nodes && nodes[Parent(p)] == Dir
  }

  /** Every proper ancestor of an existing node is an existing directory. */
  lemma {:induction false} AncestorIsDir(nodes: map<Path, Node>, p: Path, k: nat)
    requires WellFormed(nodes) && p in nodes && k < |p|
    ensures p[..k] in nodes && nodes[p[..k]] == Dir
    decreases |p| - k
  {
    if k == |p| - 1 {
      assert p[..k] == Parent(p);
    } else {
      AncestorIsDir(nodes, Parent(p), k);
      assert Parent(p)[..k] == p[..k];
    }
  }

  /** `fs::create_dir_all(p)` succeeds iff no existing prefix of `p` is something
      other than a directory. */
  predicate DirsCreatable(nodes: map<Path, Node>, p: Path)
  {
    forall k :: 0 <= k <= |p| && p[..k] in nodes ==> nodes[p[..k]] == Dir
  }

  /** The first `k` components of `p` created top-down, each one only if missing. */
  function AddDirs(nodes: map<Path, Node>, p: Path, k: nat): map<Path, Node>
    requires k <= |p|
  {
    if k == 0 then nodes
    else
      var m := AddDirs(nodes, p, k - 1);
      if p[..k] in m then m else m[p[..k] := Dir]
  }

  /** The file system after `create_dir_all(p)` succeeded. */
  function WithDirs(nodes: map<Path, Node>, p: Path): map<Path, Node>
  {
    AddDirs(nodes, p, |p|)
  }

  /** What `create_dir_all` promises: nothing existing changes, every prefix of
      the path is then a directory, and nothing but those prefixes is added. */
  lemma {:induction false} AddDirsSpec(nodes: map<Path, Node>, p: Path, k: nat)
    requires WellFormed(nodes) && DirsCreatable(nodes, p) && k <= |p|
    ensures WellFormed(AddDirs(nodes, p, k))
    ensures forall q :: q in nodes ==> q in AddDirs(nodes, p, k) && AddDirs(nodes, p, k)[q] == nodes[q]
    ensures forall j :: 0 <= j <= k ==> p[..j] in AddDirs(nodes, p, k) && AddDirs(nodes, p, k)[p[..j]] == Dir
    ensures forall q :: q in AddDirs(nodes, p, k) && q !in nodes ==> IsPrefix(q, p) && 0 < |q| <= k
  {
    if k > 0 {
      AddDirsSpec(nodes, p, k - 1);
      AddDirStep(nodes, AddDirs(nodes, p, k - 1), p, k);
    }
  }

  lemma AddDirStep(nodes: map<Path, Node>, m: map<Path, Node>, p: Path, k: nat)
    requires 0 < k <= |p| && DirsCreatable(nodes, p) && WellFormed(m)
    requires forall q :: q in nodes ==> q in m && m[q] == nodes[q]
    requires forall j :: 0 <= j <= k - 1 ==> p[..j] in m && m[p[..j]] == Dir
    requires forall q :: q in m && q !in nodes ==> IsPrefix(q, p) && 0 < |q| <= k - 1
    ensures var m' := if p[..k] in m then m else m[p[..k] := Dir];
      && WellFormed(m')
      && (forall q :: q in nodes ==> q in m' && m'[q] == nodes[q])
      && (forall j :: 0 <= j <= k ==> p[..j] in m' && m'[p[..j]] == Dir)
      && (forall q :: q in m' && q !in nodes ==> IsPrefix(q, p) && 0 < |q| <= k)
  {
    assert Parent(p[..k]) == p[..k - 1];
    if p[..k] in m {
      assert p[..k] in nodes ==> nodes[p[..k]] == Dir;
    }
  }

  /** `create_dir_all` on an existing directory changes nothing. */
  lemma WithDirsOfDir(nodes: map<Path, Node>, p: Path)
    requires WellFormed(nodes) && p in nodes && nodes[p] == Dir
    ensures DirsCreatable(nodes, p) && WithDirs(nodes, p) == nodes
  {
    forall k | 0 <= k < |p| ensures p[..k] in nodes && nodes[p[..k]] == Dir {
      AncestorIsDir(nodes, p, k);
    }
    assert p[..|p|] == p;
    AddDirsSpec(nodes, p, |p|);
  }

  /** `fs::write(p, ..)` can create or truncate `p`: it lies in a directory and is
      not itself a directory (writing through a symbolic link is not modelled). */
  predicate Writable(nodes: map<Path, Node>, p: Path)
  {
    p != [] && Parent(p) in nodes && nodes[Parent(p)] == Dir && (p in nodes ==> nodes[p].File?)
  }

  /** `fs::rename(from, to)` of a regular file onto a path that is not a directory. */
  predicate Renamable(nodes: map<Path, Node>, from: Path, to: Path)
  {
    && from in nodes && nodes[from].File?
    && to != [] && Parent(to) in nodes && nodes[Parent(to)] == Dir
    && (to in nodes ==> nodes[to] != Dir)
  }

  function Renamed(nodes: map<Path, Node>, from: Path, to: Path): map<Path, Node>
    requires from in nodes
  {
    if from == to then nodes else (nodes - {from})[to := nodes[from]]
  }

  class FileSystem {
    var nodes: map<Path, Node>

    ghost predicate Valid()
      reads this
    {
      WellFormed(nodes)
    }

    constructor (initial: map<Path, Node>)
      requires WellFormed(initial)
      ensures Valid() && nodes == initial
    {
      nodes := initial;
    }

    /** `Path::is_dir` (a symbolic link counts as not a directory). */
    predicate IsDir(p: Path)
      reads this
    {
      p in nodes && nodes[p] == Dir
    }

    predicate Exists(p: Path)
      reads this
    {
      p in nodes
    }

    method CreateDirAll(p: Path) returns (r: Result<()>)
      requires Valid()
      modifies this
      ensures Valid()
      ensures r.Ok? <==> DirsCreatable(old(nodes), p)
      ensures r.Ok? ==> nodes == WithDirs(old(nodes), p)
      ensures r.Err? ==> nodes == old(nodes)
    {
      if !DirsCreatable(nodes, p) {
        return Err(External("io: not a directory"));
      }
      var k := 0;
      while k < |p|
        invariant 0 <= k <= |p|
        invariant nodes == AddDirs(old(nodes), p, k)
      {
        k := k + 1;
        if p[..k] !in nodes {
          nodes := nodes[p[..k] := Dir];
        }
      }
      AddDirsSpec(old(nodes), p, |p|);
      r := Ok(());
    }

    method WriteFile(p: Path, bytes: seq<byte>) returns (r: Result<()>)
      requires Valid()
      modifies this
      ensures Valid()
      ensures r.Ok? <==> Writable(old(nodes), p)
      ensures r.Ok? ==> nodes == old(nodes)[p := File(bytes)]
      ensures r.Err? ==> nodes == old(nodes)
    {
      if !Writable(nodes, p) {
        return Err(External("io: cannot write"));
      }
      nodes := nodes[p := File(bytes)];
      r := Ok(());
    }

    method Rename(from: Path, to: Path) returns (r: Result<()>)
      requires Valid()
      modifies this
      ensures Valid()
      ensures r.Ok? <==> Renamable(old(nodes), from, to)
      ensures r.Ok? ==> nodes == Renamed(old(nodes), from, to)
      ensures r.Err? ==> nodes == old(nodes)
    {
      if !Renamable(nodes, from, to) {
        return Err(External("io: cannot rename"));
      }
      nodes := Renamed(nodes, from, to);
      r := Ok(());
    }
  }
}
