/** src/config.rs: the versioned configuration file, and the enumerations the
    commands share. */
module Configuration {
  import opened Errors
  import opened FileSystem
  import opened Persist
  import opened Utilities

  const CONFIG_VERSION: nat := 1
  const CONFIG_FILENAME: string := "config.json"

  /** How `init` treats git history. */
  datatype GitMode = Fresh | Preserve | NoGit

  /** Only `Strict` is named by the commands; `OtherWriteMode` stands for the
      remaining modes, which only differ from `Strict` in not being it. */
  datatype WriteMode = Strict | OtherWriteMode

  /** When `init` refreshes a git source; `OtherUpdatePolicy` stands for any
      policy other than the two the commands name. */
  datatype UpdateOnInit = Never | Always | OtherUpdatePolicy

  datatype Config = Config(version: nat)

  /** `Config::new`, also `Default`. */
  function New(): (c: Config)
    ensures c.version == CONFIG_VERSION
  {
    Config(CONFIG_VERSION)
  }

  function ConfigPath(dir: Path): Path
  {
    dir + [CONFIG_FILENAME]
  }

  /** `load_from_path`: defaults for a missing file, and any version up to
      the current one accepted. */
  function LoadFromPath(nodes: map<Path, Node>, path: Path, codec: Codec<Config>): (r: Result<Config>)
    ensures r.Ok? ==> r.value.version <= CONFIG_VERSION
    ensures path !in nodes ==> r == Ok(New())
    ensures Readable(nodes, path, codec) && codec.decode(nodes[path].bytes).Some? ==>
      var c := codec.decode(nodes[path].bytes).value;
      && (c.version <= CONFIG_VERSION ==> r == Ok(c))
      && (c.version > CONFIG_VERSION ==> r == Err(Templative(UnsupportedConfigVersion)))
    ensures r.Err? && path in nodes ==> (!Readable(nodes, path, codec) || codec.decode(nodes[path].bytes).None?
      || codec.decode(nodes[path].bytes).value.version > CONFIG_VERSION)
  {
    match LoadFile(nodes, path, codec, "config")
    case Err(e) => Err(e)
    case Ok(None) => Ok(New())
    case Ok(Some(c)) => if c.version > CONFIG_VERSION then Err(Templative(UnsupportedConfigVersion)) else Ok(c)
  }

  /** `save_to_path` then `load_from_path` gives back the saved
      configuration when its version is supported, and the version error
      otherwise. */
  lemma SaveThenLoadConfig(nodes: map<Path, Node>, path: Path, c: Config, codec: Codec<Config>)
    requires WellFormed(nodes) && Saveable(nodes, path, codec.encode(c)) && RoundTrips(codec, c)
    ensures c.version <= CONFIG_VERSION ==> LoadFromPath(Saved(nodes, path, codec.encode(c)), path, codec) == Ok(c)
    ensures c.version > CONFIG_VERSION ==>
      LoadFromPath(Saved(nodes, path, codec.encode(c)), path, codec) == Err(Templative(UnsupportedConfigVersion))
  {
    SaveSteps(nodes, path, codec.encode(c));
    SaveThenLoad(Saved(nodes, path, codec.encode(c)), path, c, codec, "config");
  }

  /** `save_to_path`. */
  method SaveToPath(c: Config, fs: FileSystem, path: Path, codec: Codec<Config>) returns (r: Result<()>)
    requires fs.Valid()
    modifies fs
    ensures fs.Valid()
    ensures r.Ok? <==> Saveable(old(fs.nodes), path, codec.encode(c))
    ensures r.Ok? ==> fs.nodes == Saved(old(fs.nodes), path, codec.encode(c))
    ensures r.Ok? ==> path in fs.nodes && fs.nodes[path] == File(codec.encode(c))
    ensures path != [] ==> forall q :: (q in old(fs.nodes) && q != path && q != TempPath(path)
        ==> q in fs.nodes && fs.nodes[q] == old(fs.nodes)[q])
  {
    r := SaveValue(fs, path, c, codec, "config");
  }

  /** `Config::load`: load from the configuration directory, then write the
      loaded value back only when there was no file. */
  method Load(fs: FileSystem, dir: Result<Path>, codec: Codec<Config>) returns (r: Result<Config>)
    requires fs.Valid()
    modifies fs
    ensures fs.Valid()
    ensures dir.Err? ==> r == Err(dir.error) && fs.nodes == old(fs.nodes)
    ensures dir.Ok? ==> var path := ConfigPath(dir.value);
      && (LoadFromPath(old(fs.nodes), path, codec).Err? ==> r == LoadFromPath(old(fs.nodes), path, codec))
      && (r.Ok? ==> r == LoadFromPath(old(fs.nodes), path, codec))
      // An existing file is only read, and never rewritten.
      && (path in old(fs.nodes) ==> r == LoadFromPath(old(fs.nodes), path, codec) && fs.nodes == old(fs.nodes))
      // A missing file gives the defaults exactly when they can be written.
      && (path !in old(fs.nodes) ==> (r.Ok? <==> Saveable(old(fs.nodes), path, codec.encode(New()))))
      && (path !in old(fs.nodes) && r.Ok? ==>
            r.value == New() && fs.nodes == Saved(old(fs.nodes), path, codec.encode(New()))
            && path in fs.nodes && fs.nodes[path] == File(codec.encode(New())))
    // Whatever the outcome, nothing but the configuration file and its
    // temporary sibling changes.
    ensures dir.Ok? ==> ConfigPath(dir.value) != [] && OnlySaveTouched(old(fs.nodes), fs.nodes, ConfigPath(dir.value))
  {
    if dir.Err? {
      return Err(dir.error);
    }
    var path := ConfigPath(dir.value);
    var loaded := LoadFromPath(fs.nodes, path, codec);
    if loaded.Err? {
      return loaded;
    }
    if !fs.Exists(path) {
      var saved := SaveToPath(loaded.value, fs, path, codec);
      if saved.Err? {
        return Err(saved.error);
      }
    }
    r := loaded;
  }
}
