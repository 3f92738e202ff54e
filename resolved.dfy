/** src/resolved.rs: the options one `init` run uses, as written with two
    inputs. */
module Resolved {
  import opened Errors
  import opened Configuration
  import opened Registry

  datatype ResolvedOptions = ResolvedOptions(commit: Option<string>, preInit: Option<string>, postInit: Option<string>)

  /** `ResolvedOptions::build`: every option comes from the template. */
  function Build(config: Config, template: Template): (r: ResolvedOptions)
    ensures r.commit == template.commit
    ensures r.preInit == template.preInit
    ensures r.postInit == template.postInit
  {
    ResolvedOptions(template.commit, template.preInit, template.postInit)
  }

  /** The configuration does not influence the result. */
  lemma BuildIgnoresConfig(c1: Config, c2: Config, template: Template)
    ensures Build(c1, template) == Build(c2, template)
  {
  }

  /** Two templates that agree on the three hook and pin fields build the same
      options, whatever their other fields. */
  lemma BuildReadsOnlyThreeFields(config: Config, t1: Template, t2: Template)
    requires t1.commit == t2.commit && t1.preInit == t2.preInit && t1.postInit == t2.postInit
    ensures Build(config, t1) == Build(config, t2)
  {
  }
}
