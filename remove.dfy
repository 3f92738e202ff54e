/** src/ops/remove.rs: removing templates by name, all or nothing. */
module Remove {
  import opened Errors
  import opened FileSystem
  import opened Persist
  import opened Registry

  /** The registry after removing `names` one after another: the first name
      that is no longer present stops the run. */
  function RemoveAll<V>(m: map<string, V>, names: seq<string>): (r: Result<map<string, V>>)
    ensures r.Ok? ==> r.value.Keys <= m.Keys
  {
    if names == [] then Ok(m)
    else match RemoveAll(m, names[..|names| - 1])
      case Err(e) => Err(e)
      case Ok(rest) =>
        var last := names[|names| - 1];
        if last !in rest then Err(Templative(TemplateNotFound(last))) else Ok(rest - {last})
  }

  predicate Distinct(names: seq<string>)
  {
    forall i, j :: 0 <= i < j < |names| ==> names[i] != names[j]
  }

  /** Removing succeeds exactly when every name is registered and none is
      repeated, and then it removes those names and nothing else. */
  lemma {:induction false} RemoveAllSpec<V>(m: map<string, V>, names: seq<string>)
    ensures RemoveAll(m, names).Ok? <==> Distinct(names) && forall i :: 0 <= i < |names| ==> names[i] in m
    ensures RemoveAll(m, names).Ok? ==>
      RemoveAll(m, names).value == map k | k in m && k !in names :: m[k]
  {
    if names != [] {
      var init := names[..|names| - 1];
      var last := names[|names| - 1];
      RemoveAllSpec(m, init);
      assert forall i :: 0 <= i < |init| ==> init[i] == names[i];
      assert forall k :: k in names <==> k in init || k == last;
      if RemoveAll(m, init).Ok? {
        var rest := RemoveAll(m, init).value;
        assert last in rest <==> last in m && last !in init;
        if last in init {
          var j :| 0 <= j < |init| && init[j] == last;
          assert names[j] == names[|names| - 1];
        }
      } else {
        assert Distinct(names) ==> Distinct(init);
      }
    }
  }

  /** The first missing or repeated name is the one reported. */
  lemma {:induction false} RemoveAllReportsFirstMissing<V>(m: map<string, V>, names: seq<string>, k: nat)
    requires k < |names|
    requires RemoveAll(m, names[..k]).Ok? && names[k] !in RemoveAll(m, names[..k]).value
    ensures RemoveAll(m, names) == Err(Templative(TemplateNotFound(names[k])))
  {
    if k == |names| - 1 {
      assert names[..|names| - 1] == names[..k];
    } else {
      var init := names[..|names| - 1];
      assert init[..k] == names[..k];
      RemoveAllReportsFirstMissing(m, init, k);
    }
  }

  /** The loop of `cmd_remove`: remove each name in turn; the first failure
      returns with the names before it already removed from memory. */
  method RemoveEach<V>(registry: Registry<V>, names: seq<string>) returns (r: Result<()>)
    modifies registry
    ensures registry.version == old(registry.version)
    ensures RemoveAll(old(registry.templates), names).Err? ==> r == Err(RemoveAll(old(registry.templates), names).error)
    ensures r.Ok? <==> RemoveAll(old(registry.templates), names).Ok?
    ensures r.Ok? ==> RemoveAll(old(registry.templates), names) == Ok(registry.templates)
  {
    for i := 0 to |names|
      invariant registry.version == old(registry.version)
      invariant RemoveAll(old(registry.templates), names[..i]) == Ok(registry.templates)
    {
      assert names[..i + 1][..i] == names[..i];
      var removed := registry.Remove(names[i]);
      if removed.Err? {
        RemoveAllReportsFirstMissing(old(registry.templates), names, i);
        return removed;
      }
    }
    assert names[..|names|] == names;
    r := Ok(());
  }

  /** The lines printed after a successful removal, one per name. */
  function RemovedLines(names: seq<string>): (r: seq<string>)
    ensures |r| == |names| && forall i :: 0 <= i < |names| ==> r[i] == "removed " + names[i]
  {
    seq(|names|, i requires 0 <= i < |names| => "removed " + names[i])
  }

  /** `cmd_remove`: load, remove every name (the first failure returns before
      anything is saved), save once, then print one line per name. */
  method CmdRemove(fs: FileSystem, projectDir: Option<Path>, codec: Codec<RegistryData<Template>>, names: seq<string>)
    returns (r: Result<()>, printed: seq<string>)
    requires fs.Valid()
    modifies fs
    ensures fs.Valid()
    ensures !Loadable(old(fs.nodes), projectDir, codec) ==> r.Err?
    ensures Loadable(old(fs.nodes), projectDir, codec) ==>
      var before := Loaded(old(fs.nodes), projectDir, codec);
      var path := RegistryPath(projectDir.value);
      && (RemoveAll(before.templates, names).Err? ==>
            r == Err(RemoveAll(before.templates, names).error)
            && fs.nodes == AfterLoad(old(fs.nodes), projectDir, codec)
            && (path in old(fs.nodes) ==> fs.nodes == old(fs.nodes)))
      // Once every name is removed, the command succeeds exactly when the
      // smaller registry can be saved, and then that is the only change.
      && (RemoveAll(before.templates, names).Ok? ==>
            var contents := codec.encode(RegistryData(before.version, RemoveAll(before.templates, names).value));
            && (r.Ok? <==> Saveable(AfterLoad(old(fs.nodes), projectDir, codec), path, contents))
            && (r.Ok? ==> fs.nodes == Saved(AfterLoad(old(fs.nodes), projectDir, codec), path, contents)))
      && (r.Ok? ==>
            && RemoveAll(before.templates, names).Ok?
            && path in fs.nodes
            && fs.nodes[path] == File(codec.encode(RegistryData(before.version, RemoveAll(before.templates, names).value))))
    // Nothing but the registry file and its temporary sibling ever changes.
    ensures projectDir.Some? ==> OnlySaveTouched(old(fs.nodes), fs.nodes, RegistryPath(projectDir.value))
    ensures r.Ok? ==> printed == RemovedLines(names)
    ensures r.Err? ==> printed == []
  {
    printed := [];
    var loaded := Load(fs, projectDir, codec);
    if loaded.Err? {
      return Err(loaded.error), printed;
    }
    var registry := loaded.value;
    var removed := RemoveEach(registry, names);
    if removed.Err? {
      return removed, printed;
    }
    ghost var afterLoad := fs.nodes;
    var saved := Save(registry, fs, projectDir, codec);
    OnlySaveTouchedTrans(old(fs.nodes), afterLoad, fs.nodes, RegistryPath(projectDir.value));
    if saved.Err? {
      return Err(saved.error), printed;
    }
    r, printed := Ok(()), RemovedLines(names);
  }
}
