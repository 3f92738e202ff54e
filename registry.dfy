/** src/registry.rs: the named templates, a sorted map kept in a versioned
    JSON file. The file as written maps names to path strings; the commands use
    the same map with `Template` records as values, so the registry is generic
    in what a name maps to. */
module Registry {
  import opened Errors
  import opened FileSystem
  import opened Persist
  import opened Configuration

  const REGISTRY_VERSION: nat := 1
  const REGISTRY_FILENAME: string := "templates.json"

  /** A registered template, as the commands build and read it. */
  datatype Template = Template(
    name: string,
    location: string,
    git: Option<GitMode>,
    description: Option<string>,
    commit: Option<string>,
    preInit: Option<string>,
    postInit: Option<string>,
    gitRef: Option<string>,
    noCache: Option<bool>)

  /** What the registry file holds. */
  datatype RegistryData<V> = RegistryData(version: nat, templates: map<string, V>)

  /** `Ord` on `String`: byte-wise, which for UTF-8 is code-point order. */
  predicate LexLess(a: string, b: string)
  {
    b != [] && (a == [] || a[0] < b[0] || (a[0] == b[0] && LexLess(a[1..], b[1..])))
  }

  lemma {:induction false} LexAsymmetric(a: string, b: string)
    ensures !(LexLess(a, b) && LexLess(b, a))
  {
    if a != [] && b != [] && a[0] == b[0] {
      LexAsymmetric(a[1..], b[1..]);
    }
  }

  lemma {:induction false} LexTransitive(a: string, b: string, c: string)
    requires LexLess(a, b) && LexLess(b, c)
    ensures LexLess(a, c)
  {
    if a != [] && a[0] == b[0] && b[0] == c[0] {
      LexTransitive(a[1..], b[1..], c[1..]);
    }
  }

  lemma {:induction false} LexTotal(a: string, b: string)
    ensures a == b || LexLess(a, b) || LexLess(b, a)
  {
    if a != [] && b != [] && a[0] == b[0] {
      LexTotal(a[1..], b[1..]);
      if a[1..] == b[1..] {
        assert a == [a[0]] + a[1..] && b == [b[0]] + b[1..];
      }
    }
  }

  predicate IsLeast(m: string, s: set<string>)
  {
    m in s && forall k :: k in s && k != m ==> LexLess(m, k)
  }

  lemma {:induction false} LeastExists(s: set<string>)
    requires s != {}
    ensures exists m :: IsLeast(m, s)
    decreases |s|
  {
    var x :| x in s;
    if s == {x} {
      assert IsLeast(x, s);
    } else {
      LeastExists(s - {x});
      var m :| IsLeast(m, s - {x});
      LexTotal(m, x);
      if LexLess(m, x) {
        assert IsLeast(m, s);
      } else {
        forall k | k in s && k != x ensures LexLess(x, k) {
          if k != m {
            LexTransitive(x, m, k);
          }
        }
        assert IsLeast(x, s);
      }
    }
  }

  lemma LeastUnique(s: set<string>)
    ensures forall m1, m2 :: IsLeast(m1, s) && IsLeast(m2, s) ==> m1 == m2
  {
    forall m1, m2 | IsLeast(m1, s) && IsLeast(m2, s) ensures m1 == m2 {
      LexAsymmetric(m1, m2);
    }
  }

  /** The keys of a `BTreeMap<String, _>` in iteration order. */
  function SortedKeys(s: set<string>): (r: seq<string>)
    ensures |r| == |s|
    ensures forall k :: k in r <==> k in s
    ensures forall i, j :: 0 <= i < j < |r| ==> LexLess(r[i], r[j])
    decreases |s|
  {
    if s == {} then []
    else
      LeastExists(s);
      LeastUnique(s);
      var m :| IsLeast(m, s);
      [m] + SortedKeys(s - {m})
  }

  /** The values of `m` at `keys`, in the order of `keys`. */
  function ValuesAt<V>(m: map<string, V>, keys: seq<string>): (r: seq<V>)
    requires forall k :: k in keys ==> k in m
    ensures |r| == |keys| && forall i :: 0 <= i < |r| ==> r[i] == m[keys[i]]
  {
    if keys == [] then [] else [m[keys[0]]] + ValuesAt(m, keys[1..])
  }

  /** The values of a sorted map in the order of their keys. */
  function InNameOrder<V>(templates: map<string, V>): (r: seq<V>)
    ensures |r| == |templates|
    ensures forall i :: 0 <= i < |r| ==> (SortedKeys(templates.Keys)[i] in templates
      && r[i] == templates[SortedKeys(templates.Keys)[i]])
  {
    ValuesAt(templates, SortedKeys(templates.Keys))
  }

  function RegistryPath(dir: Path): Path
  {
    dir + [REGISTRY_FILENAME]
  }

  /** `Registry::config_dir` through `ProjectDirs`, whose answer is passed in. */
  function RegistryPathFrom(projectDir: Option<Path>): (r: Result<Path>)
    ensures r.Ok? <==> projectDir.Some?
    ensures r.Ok? ==> r.value == projectDir.value + [REGISTRY_FILENAME]
  {
    if projectDir.None? then Err(Message("could not determine config directory"))
    else Ok(RegistryPath(projectDir.value))
  }

  /** `load_from_path`: an empty registry for a missing file, and only the
      current version accepted. */
  function LoadFromPath<V>(nodes: map<Path, Node>, path: Path, codec: Codec<RegistryData<V>>): (r: Result<RegistryData<V>>)
    ensures r.Ok? ==> r.value.version == REGISTRY_VERSION
    ensures path !in nodes ==> r == Ok(RegistryData(REGISTRY_VERSION, map[]))
    ensures Readable(nodes, path, codec) && codec.decode(nodes[path].bytes).Some? ==>
      var d := codec.decode(nodes[path].bytes).value;
      && (d.version == REGISTRY_VERSION ==> r == Ok(d))
      && (d.version != REGISTRY_VERSION ==> r == Err(Templative(UnsupportedRegistryVersion)))
  {
    match LoadFile(nodes, path, codec, "registry")
    case Err(e) => Err(e)
    case Ok(None) => Ok(RegistryData(REGISTRY_VERSION, map[]))
    case Ok(Some(d)) =>
      if d.version != REGISTRY_VERSION then Err(Templative(UnsupportedRegistryVersion)) else Ok(d)
  }

  /** `save_to_path` then `load_from_path` gives back the saved registry when
      its version is current, and the version error otherwise. */
  lemma SaveThenLoadRegistry<V>(nodes: map<Path, Node>, path: Path, d: RegistryData<V>, codec: Codec<RegistryData<V>>)
    requires WellFormed(nodes) && Saveable(nodes, path, codec.encode(d)) && RoundTrips(codec, d)
    ensures d.version == REGISTRY_VERSION ==> LoadFromPath(Saved(nodes, path, codec.encode(d)), path, codec) == Ok(d)
    ensures d.version != REGISTRY_VERSION ==>
      LoadFromPath(Saved(nodes, path, codec.encode(d)), path, codec) == Err(Templative(UnsupportedRegistryVersion))
  {
    SaveSteps(nodes, path, codec.encode(d));
    SaveThenLoad(Saved(nodes, path, codec.encode(d)), path, d, codec, "registry");
  }

  class Registry<V> {
    var version: nat
    var templates: map<string, V>

    /** `Registry::new`, also `Default`. */
    constructor New()
      ensures version == REGISTRY_VERSION && templates == map[]
    {
      version := REGISTRY_VERSION;
      templates := map[];
    }

    /** The registry deserialised from its file. */
    constructor FromData(d: RegistryData<V>)
      ensures Data() == d
    {
      version := d.version;
      templates := d.templates;
    }

    function Data(): RegistryData<V>
      reads this
    {
      RegistryData(version, templates)
    }

    /** `add`: a fresh name is inserted, an existing one refused. */
    method Add(name: string, value: V) returns (r: Result<()>)
      modifies this
      ensures version == old(version)
      ensures name in old(templates) ==> r == Err(Templative(TemplateExists(name))) && templates == old(templates)
      ensures name !in old(templates) ==> r == Ok(()) && templates == old(templates)[name := value]
    {
      if name in templates {
        return Err(Templative(TemplateExists(name)));
      }
      templates := templates[name := value];
      r := Ok(());
    }

    /** `remove`: a present name is deleted, an absent one refused. */
    method Remove(name: string) returns (r: Result<()>)
      modifies this
      ensures version == old(version)
      ensures name !in old(templates) ==> r == Err(Templative(TemplateNotFound(name))) && templates == old(templates)
      ensures name in old(templates) ==> r == Ok(()) && templates == old(templates) - {name}
    {
      if name !in templates {
        return Err(Templative(TemplateNotFound(name)));
      }
      templates := templates - {name};
      r := Ok(());
    }

    /** `get_path` (and `get` for the commands' records). */
    function GetPath(name: string): (r: Option<V>)
      reads this
      ensures r.Some? <==> name in templates
      ensures r.Some? ==> r.value == templates[name]
    {
      if name in templates then Some(templates[name]) else None
    }

    /** `get_mut` followed by writes through the reference: the record under
        `name` is replaced, the key stays. */
    method Put(name: string, value: V)
      requires name in templates
      modifies this
      ensures version == old(version) && templates == old(templates)[name := value]
      ensures templates.Keys == old(templates).Keys
    {
      templates := templates[name := value];
    }

    /** `template_names_sorted`: every name once, in ascending order. */
    function TemplateNamesSorted(): (r: seq<string>)
      reads this
      ensures |r| == |templates|
      ensures forall k :: k in r <==> k in templates
      ensures forall i, j :: 0 <= i < j < |r| ==> LexLess(r[i], r[j])
    {
      SortedKeys(templates.Keys)
    }

    /** `templates_sorted`: the values in the order of their names. */
    function TemplatesSorted(): (r: seq<V>)
      reads this
      ensures |r| == |templates|
      ensures forall i :: 0 <= i < |r| ==> TemplateNamesSorted()[i] in templates && r[i] == templates[TemplateNamesSorted()[i]]
    {
      InNameOrder(templates)
    }

    /** `save_to_path`. */
    method SaveToPath(fs: FileSystem, path: Path, codec: Codec<RegistryData<V>>) returns (r: Result<()>)
      requires fs.Valid()
      modifies fs
      ensures fs.Valid()
      ensures r.Ok? <==> Saveable(old(fs.nodes), path, codec.encode(Data()))
      ensures r.Ok? ==> fs.nodes == Saved(old(fs.nodes), path, codec.encode(Data()))
      ensures r.Ok? ==> path in fs.nodes && fs.nodes[path] == File(codec.encode(Data()))
      ensures path != [] ==> forall q :: (q in old(fs.nodes) && q != path && q != TempPath(path)
          ==> q in fs.nodes && fs.nodes[q] == old(fs.nodes)[q])
    {
      r := SaveValue(fs, path, Data(), codec, "registry");
    }
  }

  /** `Registry::load` succeeds: the file is missing or holds a supported
      registry, and a missing file can be written. */
  ghost predicate Loadable<V>(nodes: map<Path, Node>, projectDir: Option<Path>, codec: Codec<RegistryData<V>>)
  {
    && projectDir.Some?
    && var path := RegistryPath(projectDir.value);
    && LoadFromPath(nodes, path, codec).Ok?
    && (path in nodes || Saveable(nodes, path, codec.encode(LoadFromPath(nodes, path, codec).value)))
  }

  /** What `Registry::load` gives when it succeeds. */
  ghost function Loaded<V>(nodes: map<Path, Node>, projectDir: Option<Path>, codec: Codec<RegistryData<V>>): RegistryData<V>
    requires Loadable(nodes, projectDir, codec)
  {
    LoadFromPath(nodes, RegistryPath(projectDir.value), codec).value
  }

  /** The file system after `Registry::load` succeeded: unchanged when the file
      existed, and with the loaded registry written otherwise. */
  ghost function AfterLoad<V>(nodes: map<Path, Node>, projectDir: Option<Path>, codec: Codec<RegistryData<V>>): map<Path, Node>
    requires Loadable(nodes, projectDir, codec)
  {
    var path := RegistryPath(projectDir.value);
    if path in nodes then nodes else Saved(nodes, path, codec.encode(Loaded(nodes, projectDir, codec)))
  }

  /** `Registry::load`: load from the configuration directory, then write the
      loaded registry back only when there was no file. */
  method Load<V>(fs: FileSystem, projectDir: Option<Path>, codec: Codec<RegistryData<V>>) returns (r: Result<Registry<V>>)
    requires fs.Valid()
    modifies fs
    ensures fs.Valid()
    ensures projectDir.None? ==> r.Err? && fs.nodes == old(fs.nodes)
    ensures r.Ok? ==> fresh(r.value) && projectDir.Some?
    ensures r.Ok? <==> Loadable(old(fs.nodes), projectDir, codec)
    ensures r.Ok? ==> r.value.Data() == Loaded(old(fs.nodes), projectDir, codec)
    ensures r.Ok? ==> fs.nodes == AfterLoad(old(fs.nodes), projectDir, codec)
    ensures projectDir.Some? ==> OnlySaveTouched(old(fs.nodes), fs.nodes, RegistryPath(projectDir.value))
    ensures projectDir.Some? ==> var path := RegistryPath(projectDir.value);
      && (LoadFromPath(old(fs.nodes), path, codec).Err? ==> r.Err? && r.error == LoadFromPath(old(fs.nodes), path, codec).error)
      && (r.Ok? ==> LoadFromPath(old(fs.nodes), path, codec) == Ok(r.value.Data()))
      // An existing file is never rewritten.
      && (path in old(fs.nodes) ==> fs.nodes == old(fs.nodes))
      // A missing file is replaced by an empty registry.
      && (path !in old(fs.nodes) && r.Ok? ==> path in fs.nodes && fs.nodes[path] == File(codec.encode(r.value.Data())))
  {
    var located := RegistryPathFrom(projectDir);
    if located.Err? {
      return Err(located.error);
    }
    var path := located.value;
    var loaded := LoadFromPath(fs.nodes, path, codec);
    if loaded.Err? {
      return Err(loaded.error);
    }
    var registry := new Registry.FromData(loaded.value);
    if !fs.Exists(path) {
      var saved := registry.SaveToPath(fs, path, codec);
      if saved.Err? {
        return Err(saved.error);
      }
    }
    r := Ok(registry);
  }

  /** `Registry::save`. */
  method Save<V>(registry: Registry<V>, fs: FileSystem, projectDir: Option<Path>, codec: Codec<RegistryData<V>>)
    returns (r: Result<()>)
    requires fs.Valid()
    modifies fs
    ensures fs.Valid()
    ensures projectDir.None? ==> r.Err? && fs.nodes == old(fs.nodes)
    ensures r.Ok? ==> projectDir.Some?
    // Saving succeeds exactly when the registry file can be written.
    ensures projectDir.Some? ==> var path := RegistryPath(projectDir.value);
      && (r.Ok? <==> Saveable(old(fs.nodes), path, codec.encode(registry.Data())))
      && (r.Ok? ==> fs.nodes == Saved(old(fs.nodes), path, codec.encode(registry.Data())))
    ensures r.Ok? ==> var path := RegistryPath(projectDir.value);
      path in fs.nodes && fs.nodes[path] == File(codec.encode(registry.Data()))
    ensures projectDir.Some? ==> OnlySaveTouched(old(fs.nodes), fs.nodes, RegistryPath(projectDir.value))
  {
    var located := RegistryPathFrom(projectDir);
    if located.Err? {
      return Err(located.error);
    }
    r := registry.SaveToPath(fs, located.value, codec);
  }
}
