/** src/ops/change.rs: editing the fields of a registered template. What
    `canonicalize` resolves a new location to is a parameter. */
module Change {
  import opened Errors
  import opened FileSystem
  import opened Persist
  import Configuration
  import opened Registry

  /** The requested changes. `git` and `noCache` can also be cleared, so they
      carry a second `Option`; the other fields can only be set. */
  datatype Changes = Changes(
    name: Option<string>,
    description: Option<string>,
    location: Option<string>,
    git: Option<Option<Configuration.GitMode>>,
    commit: Option<string>,
    preInit: Option<string>,
    postInit: Option<string>,
    gitRef: Option<string>,
    noCache: Option<Option<bool>>)

  predicate NoChanges(c: Changes)
  {
    && c.name.None? && c.description.None? && c.location.None? && c.git.None? && c.commit.None?
    && c.preInit.None? && c.postInit.None? && c.gitRef.None? && c.noCache.None?
  }

  function Apply<T>(change: Option<T>, current: T): T
  {
    if change.Some? then change.value else current
  }

  function Set<T>(change: Option<T>, current: Option<T>): Option<T>
  {
    if change.Some? then change else current
  }

  /** The writes through `get_mut`: a given field replaces the old one, an
      absent one keeps it, and a new location must canonicalize. */
  function ApplyChanges(t: Template, c: Changes, canonical: Option<Path>): (r: Result<Template>)
    ensures c.location.Some? && canonical.None? ==>
      r == Err(Context("path not found: " + c.location.value, External("io")))
    ensures r.Ok? <==> c.location.None? || canonical.Some?
    ensures r.Ok? ==>
      && r.value.name == (if c.name.Some? then c.name.value else t.name)
      && r.value.description == (if c.description.Some? then c.description else t.description)
      && r.value.location == (if c.location.Some? then Display(canonical.value) else t.location)
      && r.value.git == (if c.git.Some? then c.git.value else t.git)
      && r.value.commit == (if c.commit.Some? then c.commit else t.commit)
      && r.value.preInit == (if c.preInit.Some? then c.preInit else t.preInit)
      && r.value.postInit == (if c.postInit.Some? then c.postInit else t.postInit)
      && r.value.gitRef == (if c.gitRef.Some? then c.gitRef else t.gitRef)
      && r.value.noCache == (if c.noCache.Some? then c.noCache.value else t.noCache)
  {
    if c.location.Some? && canonical.None? then
      Err(Context("path not found: " + c.location.value, External("io")))
    else
      Ok(Template(
        Apply(c.name, t.name),
        if c.location.Some? then Display(canonical.value) else t.location,
        Apply(c.git, t.git),
        Set(c.description, t.description),
        Set(c.commit, t.commit),
        Set(c.preInit, t.preInit),
        Set(c.postInit, t.postInit),
        Set(c.gitRef, t.gitRef),
        Apply(c.noCache, t.noCache)))
  }

  /** Asking for nothing changes nothing. */
  lemma NoChangesIsIdentity(t: Template, c: Changes, canonical: Option<Path>)
    requires NoChanges(c)
    ensures ApplyChanges(t, c, canonical) == Ok(t)
  {
  }

  /** Applying the same changes twice gives what applying them once gives. */
  lemma ApplyIdempotent(t: Template, c: Changes, canonical: Option<Path>)
    requires ApplyChanges(t, c, canonical).Ok?
    ensures ApplyChanges(ApplyChanges(t, c, canonical).value, c, canonical) == ApplyChanges(t, c, canonical)
  {
  }

  /** Changes to different fields commute. */
  lemma DisjointChangesCommute(t: Template, c1: Changes, c2: Changes, canonical: Option<Path>)
    requires ApplyChanges(t, c1, canonical).Ok? && ApplyChanges(t, c2, canonical).Ok?
    requires c1.name.None? || c2.name.None?
    requires c1.description.None? || c2.description.None?
    requires c1.location.None? || c2.location.None?
    requires c1.git.None? || c2.git.None?
    requires c1.commit.None? || c2.commit.None?
    requires c1.preInit.None? || c2.preInit.None?
    requires c1.postInit.None? || c2.postInit.None?
    requires c1.gitRef.None? || c2.gitRef.None?
    requires c1.noCache.None? || c2.noCache.None?
    ensures ApplyChanges(ApplyChanges(t, c1, canonical).value, c2, canonical)
         == ApplyChanges(ApplyChanges(t, c2, canonical).value, c1, canonical)
  {
  }

  const NOTHING_TO_CHANGE: string := "no changes specified"

  /** `cmd_change`: refuse an empty request before loading anything, refuse a
      new name already in use (even the template's own), look the template
      up, apply the changes and save. The record stays under its old key. */
  method CmdChange(fs: FileSystem, projectDir: Option<Path>, codec: Codec<RegistryData<Template>>,
                   templateName: string, c: Changes, canonical: Option<Path>)
    returns (r: Result<()>, printed: seq<string>)
    requires fs.Valid()
    modifies fs
    ensures fs.Valid()
    ensures NoChanges(c) ==> r == Err(Message(NOTHING_TO_CHANGE)) && fs.nodes == old(fs.nodes)
    ensures !NoChanges(c) && !Loadable(old(fs.nodes), projectDir, codec) ==> r.Err?
    ensures !NoChanges(c) && Loadable(old(fs.nodes), projectDir, codec) ==>
      var before := Loaded(old(fs.nodes), projectDir, codec);
      var unchangedFile := fs.nodes == AfterLoad(old(fs.nodes), projectDir, codec)
                           && (RegistryPath(projectDir.value) in old(fs.nodes) ==> fs.nodes == old(fs.nodes));
      && (c.name.Some? && c.name.value in before.templates ==>
            r == Err(Templative(TemplateExists(c.name.value))) && unchangedFile)
      && ((c.name.None? || c.name.value !in before.templates) && templateName !in before.templates ==>
            r == Err(Templative(TemplateNotFound(templateName))) && unchangedFile)
      && ((c.name.None? || c.name.value !in before.templates) && templateName in before.templates
          && ApplyChanges(before.templates[templateName], c, canonical).Err? ==>
            r == Err(ApplyChanges(before.templates[templateName], c, canonical).error) && unchangedFile)
      // Once the changes apply, the command succeeds exactly when the changed
      // registry can be saved, and then that is the only change.
      && ((c.name.None? || c.name.value !in before.templates) && templateName in before.templates
          && ApplyChanges(before.templates[templateName], c, canonical).Ok? ==>
            var after := ApplyChanges(before.templates[templateName], c, canonical).value;
            var contents := codec.encode(RegistryData(before.version, before.templates[templateName := after]));
            && (r.Ok? <==> Saveable(AfterLoad(old(fs.nodes), projectDir, codec), RegistryPath(projectDir.value), contents))
            && (r.Ok? ==> fs.nodes == Saved(AfterLoad(old(fs.nodes), projectDir, codec), RegistryPath(projectDir.value), contents)))
      && (r.Ok? ==>
            && templateName in before.templates
            && ApplyChanges(before.templates[templateName], c, canonical).Ok?
            && var after := ApplyChanges(before.templates[templateName], c, canonical).value;
            && RegistryPath(projectDir.value) in fs.nodes
            && fs.nodes[RegistryPath(projectDir.value)]
               == File(codec.encode(RegistryData(before.version, before.templates[templateName := after]))))
    // Nothing but the registry file and its temporary sibling ever changes.
    ensures projectDir.Some? ==> OnlySaveTouched(old(fs.nodes), fs.nodes, RegistryPath(projectDir.value))
    ensures r.Ok? <==> printed == ["updated " + templateName]
    ensures r.Err? ==> printed == []
  {
    printed := [];
    if NoChanges(c) {
      return Err(Message(NOTHING_TO_CHANGE)), printed;
    }
    var loaded := Load(fs, projectDir, codec);
    if loaded.Err? {
      return Err(loaded.error), printed;
    }
    var registry := loaded.value;
    if c.name.Some? && registry.GetPath(c.name.value).Some? {
      return Err(Templative(TemplateExists(c.name.value))), printed;
    }
    var current := registry.GetPath(templateName);
    if current.None? {
      return Err(Templative(TemplateNotFound(templateName))), printed;
    }
    var changed := ApplyChanges(current.value, c, canonical);
    if changed.Err? {
      return Err(changed.error), printed;
    }
    registry.Put(templateName, changed.value);
    var saved := Save(registry, fs, projectDir, codec);
    if saved.Err? {
      return Err(saved.error), printed;
    }
    r, printed := Ok(()), ["updated " + templateName];
  }
}
