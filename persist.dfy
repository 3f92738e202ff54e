/** The JSON files the registry and the configuration live in: the serde
    encoding as a codec, `save_to_path`'s write-then-rename sequence and the
    reading half of `load_from_path`, shared by src/registry.rs and
    src/config.rs, which repeat the same steps with their own messages. */
module Persist {
  import opened Errors
  import opened Text
  import opened FileSystem

  /** `serde_json::to_string_pretty` and `serde_json::from_str` for one type:
      `isUtf8` says which bytes `fs::read_to_string` accepts, and `decode`
      gives `None` for text that does not parse. */
  datatype Codec<!T> = Codec(encode: T -> seq<byte>, isUtf8: seq<byte> -> bool, decode: seq<byte> -> Option<T>)

  /** The codec writes UTF-8 and reads back what it wrote. */
  ghost predicate RoundTrips<T>(codec: Codec<T>, value: T)
  {
    codec.isUtf8(codec.encode(value)) && codec.decode(codec.encode(value)) == Some(value)
  }

  /** `fs::read_to_string(path)` succeeds: a regular file holding UTF-8. */
  predicate Readable<T>(nodes: map<Path, Node>, path: Path, codec: Codec<T>)
  {
    path in nodes && nodes[path].File? && codec.isUtf8(nodes[path].bytes)
  }

  /** The part of a file name `Path::with_extension` keeps: everything before
      the last '.', unless that '.' is the first character or there is none. */
  function Stem(name: string): (r: string)
    ensures IsPrefixOf(r, name)
    ensures r == name || (0 < |r| < |name| && name[|r|] == '.' && '.' !in name[|r| + 1..])
  {
    match LastIndexOf(name, '.')
    case None => name
    case Some(i) => if i == 0 then name else name[..i]
  }

  predicate IsPrefixOf(p: string, s: string)
  {
    |p| <= |s| && s[..|p|] == p
  }

  /** `Path::with_extension(ext)` on a file name. */
  function WithExtension(name: string, ext: string): (r: string)
    requires ext != ""
    ensures EndsWith(r, "." + ext) && IsPrefixOf(Stem(name), r)
  {
    Stem(name) + "." + ext
  }

  /** `path.with_extension("tmp")`: a sibling of `path`. */
  function TempPath(path: Path): (r: Path)
    requires path != []
    ensures r != [] && Parent(r) == Parent(path) && EndsWith(r[|r| - 1], ".tmp")
  {
    Parent(path) + [WithExtension(path[|path| - 1], "tmp")]
  }

  /** Everything `save_to_path` needs of the file system: the parent can be
      created, the temporary file written and renamed onto `path`. */
  ghost predicate Saveable(nodes: map<Path, Node>, path: Path, contents: seq<byte>)
  {
    && path != []
    && DirsCreatable(nodes, Parent(path))
    && Writable(WithDirs(nodes, Parent(path)), TempPath(path))
    && Renamable(WithDirs(nodes, Parent(path))[TempPath(path) := File(contents)], TempPath(path), path)
  }

  ghost function Saved(nodes: map<Path, Node>, path: Path, contents: seq<byte>): map<Path, Node>
    requires path != []
  {
    Renamed(WithDirs(nodes, Parent(path))[TempPath(path) := File(contents)], TempPath(path), path)
  }

  /** Between `before` and `after` nothing is removed and nothing changes but
      `path` and its temporary sibling. */
  ghost predicate OnlySaveTouched(before: map<Path, Node>, after: map<Path, Node>, path: Path)
    requires path != []
  {
    forall q :: q in before && q != path && q != TempPath(path) ==> q in after && after[q] == before[q]
  }

  lemma OnlySaveTouchedTrans(a: map<Path, Node>, b: map<Path, Node>, c: map<Path, Node>, path: Path)
    requires path != [] && OnlySaveTouched(a, b, path) && OnlySaveTouched(b, c, path)
    ensures OnlySaveTouched(a, c, path)
  {
  }

  /** The steps of `save_to_path` after serialising; `what` is the word the
      messages use ("registry" or "config"). */
  method SaveBytes(fs: FileSystem, path: Path, contents: seq<byte>, what: string) returns (r: Result<()>)
    requires fs.Valid()
    modifies fs
    ensures fs.Valid()
    ensures path == [] ==> r == Err(Message(what + " path has no parent")) && fs.nodes == old(fs.nodes)
    ensures r.Ok? <==> Saveable(old(fs.nodes), path, contents)
    ensures r.Ok? ==> fs.nodes == Saved(old(fs.nodes), path, contents)
    // After a success the target holds exactly the new contents.
    ensures r.Ok? ==> path in fs.nodes && fs.nodes[path] == File(contents)
    // Whatever happens, nothing but the target and its temporary sibling changes.
    ensures path != [] ==> forall q :: (q in old(fs.nodes) && q != path && q != TempPath(path)
        ==> q in fs.nodes && fs.nodes[q] == old(fs.nodes)[q])
  {
    if path == [] {
      return Err(Message(what + " path has no parent"));
    }
    var parent := Parent(path);
    var made := fs.CreateDirAll(parent);
    if made.Err? {
      return Err(Context("failed to create config dir: " + Display(parent), made.error));
    }
    SaveSteps(old(fs.nodes), path, contents);
    var temp := TempPath(path);
    var written := fs.WriteFile(temp, contents);
    if written.Err? {
      return Err(Context("failed to write " + what + ": " + Display(temp), written.error));
    }
    var renamed := fs.Rename(temp, path);
    if renamed.Err? {
      return Err(Context("failed to rename " + what + ": " + Display(path), renamed.error));
    }
    r := Ok(());
  }

  /** What each step of `SaveBytes` leaves in place. */
  lemma SaveSteps(nodes: map<Path, Node>, path: Path, contents: seq<byte>)
    requires WellFormed(nodes) && path != [] && DirsCreatable(nodes, Parent(path))
    ensures WellFormed(WithDirs(nodes, Parent(path)))
    ensures forall q :: q in nodes ==> q in WithDirs(nodes, Parent(path)) && WithDirs(nodes, Parent(path))[q] == nodes[q]
    ensures path in Saved(nodes, path, contents) && Saved(nodes, path, contents)[path] == File(contents)
    ensures forall q :: (q in nodes && q != path && q != TempPath(path)
        ==> q in Saved(nodes, path, contents) && Saved(nodes, path, contents)[q] == nodes[q])
  {
    AddDirsSpec(nodes, Parent(path), |Parent(path)|);
  }

  /** `save_to_path`: serialise, then write and rename. */
  method SaveValue<T>(fs: FileSystem, path: Path, value: T, codec: Codec<T>, what: string) returns (r: Result<()>)
    requires fs.Valid()
    modifies fs
    ensures fs.Valid()
    ensures r.Ok? <==> Saveable(old(fs.nodes), path, codec.encode(value))
    ensures r.Ok? ==> fs.nodes == Saved(old(fs.nodes), path, codec.encode(value))
    ensures r.Ok? ==> path in fs.nodes && fs.nodes[path] == File(codec.encode(value))
    ensures path != [] ==> forall q :: (q in old(fs.nodes) && q != path && q != TempPath(path)
        ==> q in fs.nodes && fs.nodes[q] == old(fs.nodes)[q])
  {
    r := SaveBytes(fs, path, codec.encode(value), what);
  }

  /** The reading half of `load_from_path`: no file gives `None`; a node that
      is not a file or does not hold UTF-8 cannot be read, and text that does
      not parse is a parse error, each with its context. */
  function LoadFile<T>(nodes: map<Path, Node>, path: Path, codec: Codec<T>, what: string): (r: Result<Option<T>>)
    ensures r == Ok(None) <==> path !in nodes
    ensures r.Ok? && r.value.Some? <==> Readable(nodes, path, codec) && codec.decode(nodes[path].bytes).Some?
    ensures r.Ok? && r.value.Some? ==> codec.decode(nodes[path].bytes) == r.value
    ensures path in nodes && !Readable(nodes, path, codec)
        ==> r == Err(Context("failed to read " + what + ": " + Display(path), External("io")))
    ensures Readable(nodes, path, codec) && codec.decode(nodes[path].bytes).None?
        ==> r == Err(Context("failed to parse " + what + ": " + Display(path), External("serde_json")))
  {
    if path !in nodes then Ok(None)
    else if !Readable(nodes, path, codec) then Err(Context("failed to read " + what + ": " + Display(path), External("io")))
    else match codec.decode(nodes[path].bytes)
      case None => Err(Context("failed to parse " + what + ": " + Display(path), External("serde_json")))
      case Some(value) => Ok(Some(value))
  }

  /** Saving then loading gives back the saved value. */
  lemma SaveThenLoad<T>(nodes: map<Path, Node>, path: Path, value: T, codec: Codec<T>, what: string)
    requires path in nodes && nodes[path] == File(codec.encode(value)) && RoundTrips(codec, value)
    ensures LoadFile(nodes, path, codec, what) == Ok(Some(value))
  {
  }
}
