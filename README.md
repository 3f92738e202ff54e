# templative, modelled in Dafny

templative is a command-line tool. It registers named templates, which are
local directories or git URLs, in a versioned JSON registry. It then
materialises a template into a target directory: it copies the tree without
excluded entries, then starts, keeps or omits git history. This project models
the core of that tool and proves what each step promises:

- **The template copier** (`FsCopy`): the skip predicate, the glob-set build
  and one pruning walk over a file system held as a map from paths to nodes.
- **The init pipeline** (`Init`): source resolution, the guards, the git-mode
  dispatch and the hooks, as a trace of the actions issued.
- **The registry and the commands over it** (`Registry`, `Add`, `Change`,
  `Remove`, `Update`, `List`).
- **The small decisions**: resolved options, dangerous targets, the
  configuration directory, configuration versions, completion-script
  versions, and the git identity check and first commit.

Every query or effect that lies outside the model is an input value:

- git and hook subprocesses, as a `ProcessOutput` or a `Result`;
- environment variables;
- the JSON codec (`Codec`), the glob engine (`GlobEngine`) and display width.

The file system is a `FileSystem` class whose map the methods update in
place. Each command returns the lines it prints.

The snapshot of the repository mixes versions, and the model follows each file
as written:

- `copy_template` takes three arguments (`src/fs_copy.rs:47`), while
  `src/ops/init.rs` passes four. `CmdInit` therefore takes the copy's outcome
  as an input.
- `ResolvedOptions::build` takes the configuration and the template and reads
  only `commit`, `pre_init` and `post_init` (`src/resolved.rs:15-21`).
  `cmd_init` calls a four-argument version, so the remaining resolved options
  are the `InitOptions` input.
- `src/registry.rs` maps names to path strings, while the commands store
  `Template` records. `Registry<V>` is therefore generic in its values: the
  file as written is `Registry<string>`, and the commands use
  `Registry<Template>`.

The model follows the files as written. `src/ops/init.rs:107-112` hands
`copy_template` a resolved exclude list and write mode, but the copier and the
option resolution as written do less than that call suggests:

- A symbolic link that the walk reaches aborts the copy with
  `SymlinkNotSupported`. It is not recreated.
- `.git` is skipped at every depth, not only at the top level.
- There is no write-mode conflict handling beyond the `Strict` emptiness check
  in `cmd_init`.
- Exclude lists are not merged from the configuration and the template.
- The registry rejects any version other than 1. The configuration rejects
  only versions above 1.

## Model

| member | source | states |
|---|---|---|
| FsCopy.BuildGlobset | src/fs_copy.rs:10-19 | Succeeds exactly when every pattern compiles and the builder builds, and the set then holds the patterns in order. A pattern that does not compile is reported, the first one, with the "invalid exclude pattern" context. A failed build gives "failed to build exclude patterns". Any error equals `GlobsetError` of the patterns. |
| FsCopy.GlobsetError | src/fs_copy.rs:10-19 | The error for patterns that do not compile: "invalid exclude pattern: p" for the first invalid pattern p, and "failed to build exclude patterns" when every pattern is valid. |
| FsCopy.ShouldSkipEntrySpec | src/fs_copy.rs:24-42 | An entry is skipped iff one of its components is ".git" or matches a pattern, or its whole relative path "a/b/c" matches a pattern. |
| FsCopy.SkipByComponentSpec | src/fs_copy.rs:29-37 | The component loop returns true iff some component is ".git" or matches a pattern. |
| FsCopy.GitAlwaysSkipped | src/fs_copy.rs:31-33 | A relative path with a ".git" component at any depth is skipped, with the given patterns and with none. |
| FsCopy.PrunedSubtree | src/fs_copy.rs:59-65 | Nothing below a skipped directory is walked, since `filter_entry` prunes its subtree. |
| FsCopy.CopyTemplate | src/fs_copy.rs:47-98 | A source that is not a directory fails before the destination is created. A destination that cannot be created fails with the "failed to create destination: dest" context and changes nothing. Patterns that do not compile or build fail after the destination exists and before any entry is copied, with exactly `GlobsetError`'s error. No node is ever removed, and only the destination, its ancestors and the copies of walked entries change. On success every walked directory exists at dest/relative and every walked file has identical bytes there. `SymlinkNotSupported` is returned only if the walk reaches a symbolic link. Into a destination with nothing below it yet, from a directory source, with creatable destination and compiling patterns, the copy succeeds exactly when the walk reaches no symbolic link, and fails with `SymlinkNotSupported` otherwise; a link in a pruned subtree does no harm. |
| FsCopy.Walk | src/fs_copy.rs:56-96 | The walk loop, in any order that visits a directory before its entries. It never copies the source root or a pruned entry. It places every walked entry on success, and fails with `SymlinkNotSupported` only at a walked link. When everything below the destination is a copy of a tree entry, the result is `SymlinkNotSupported` if the walk reaches a link and `Ok` otherwise. |
| FsCopy.CopyEntry | src/fs_copy.rs:81-94 | One walked entry that is not a link is copied: only its destination path may change, and on success it is in place. Into a destination that holds only copies of tree entries it always succeeds and keeps that so. |
| FsCopy.CopyDir | src/fs_copy.rs:81-83 | A walked directory is created at dest/relative, and nothing outside its ancestors changes. Into a destination that holds only copies of tree entries it always succeeds. |
| FsCopy.CopyFile | src/fs_copy.rs:84-90 | A walked file's parent is created and the file is copied with identical bytes, changing nothing else. Into a destination that holds only copies of tree entries it always succeeds. |
| Resolved.Build | src/resolved.rs:15-21 | `commit`, `pre_init` and `post_init` are the template's own. |
| Resolved.BuildIgnoresConfig | src/resolved.rs:15-21 | The result is the same for every configuration. |
| Resolved.BuildReadsOnlyThreeFields | src/resolved.rs:17-19 | Templates that agree on commit and both hooks build the same options, whatever their other fields. |
| Utilities.IsDangerousPath | src/utilities.rs:32-35 | "/" is always dangerous. A path equal to $HOME is dangerous. With HOME unset only "/" is. Nothing else is. |
| Utilities.BelowHomeIsSafe | src/utilities.rs:34 | Danger is whole-path equality, so nothing strictly below the home directory is dangerous. |
| Utilities.BelowRootIsSafeUnlessHome | src/utilities.rs:34 | Any path other than "/" and $HOME is safe. |
| Utilities.ConfigDir | src/utilities.rs:8-23 | XDG_CONFIG_HOME/templative when that variable is set, else HOME/.config/templative. It is an error, with the message the code gives, exactly when neither variable is set. |
| Utilities.XdgTakesPrecedence | src/utilities.rs:11-16 | With XDG_CONFIG_HOME set, the value of HOME has no influence. |
| Utilities.IsDirEmpty | src/utilities.rs:50-54 | Reading fails unless the path is a directory, with the "failed to read directory" context. The result is true iff no node lies directly in the directory. |
| Utilities.CreatedDirIsEmpty | src/utilities.rs:50-54 | A directory that `create_dir_all` has just made reads as empty. |
| Utilities.RunHook | src/utilities.rs:37-48 | Succeeds iff the command exits with status 0. A spawn failure gives "failed to execute hook"; a failing exit gives "hook failed: " and the trimmed stderr. |
| Persist.Stem | src/registry.rs:75 | The part of a file name that `with_extension` keeps: either the whole name, or a non-empty prefix that stops at the last '.'. |
| Persist.WithExtension | src/registry.rs:75 | The result ends with "." + extension and starts with the stem. |
| Persist.TempPath | src/registry.rs:75 | The temporary file is a sibling of the target whose name ends in ".tmp". |
| Persist.SaveBytes | src/registry.rs:69-81 | Succeeds exactly when the parent can be created and the temporary file written and renamed. On success the target holds exactly the new bytes. Whatever happens, nothing but the target and its temporary sibling changes. A path without a parent fails and changes nothing. |
| Persist.SaveValue | src/config.rs:52-64 | Serialise with the codec, then save as `SaveBytes` does. |
| Persist.LoadFile | src/registry.rs:49-56 | No file gives nothing. A node that is not a file, or bytes that are not UTF-8, give the "failed to read" error. Text that does not parse gives the "failed to parse" error. Otherwise the result is the decoded value. |
| Persist.SaveThenLoad | src/registry.rs:53-56 | A file holding a value's encoding loads back as that value when the codec round-trips. |
| Configuration.New | src/config.rs:20-22 | The default configuration has version 1. |
| Configuration.LoadFromPath | src/config.rs:33-45 | A missing file gives the defaults. A decoded configuration of version at most 1 is accepted as it is, and one above 1 is rejected with `UnsupportedConfigVersion`. Every other error comes from an unreadable or unparsable file. |
| Configuration.SaveThenLoadConfig | src/config.rs:52-64 | Saving then loading gives back the saved configuration when its version is supported, and the version error otherwise. |
| Configuration.SaveToPath | src/config.rs:52-64 | Succeeds exactly when the file can be saved. The file then holds the encoding, and nothing but it and its temporary sibling changes. |
| Configuration.Load | src/config.rs:24-31 | An existing file gives exactly what `load_from_path` gives and is never rewritten. A missing file gives the defaults exactly when they can be saved, and the file system is then exactly the one with the defaults saved. Whatever the outcome, nothing but the configuration file and its temporary sibling changes. |
| Registry.Registry.New | src/registry.rs:21-26 | An empty registry of version 1. |
| Registry.Registry.Add | src/registry.rs:83-89 | An existing name fails with `TemplateExists` and leaves the map unchanged. A fresh name is mapped to the value, and every other entry stays. |
| Registry.Registry.Remove | src/registry.rs:91-100 | An absent name fails with `TemplateNotFound` and leaves the map unchanged. A present name loses exactly its entry. |
| Registry.Registry.GetPath | src/registry.rs:102-104 | Some value iff the name is registered, and then the value registered under it. |
| Registry.Registry.Put | src/ops/change.rs:36-53 | Writing through `get_mut` replaces the record under the name and keeps every key and the version. |
| Registry.Registry.TemplateNamesSorted | src/registry.rs:106-108 | Every registered name exactly once, in strictly ascending byte order. |
| Registry.Registry.TemplatesSorted | src/ops/update.rs:20 | One value per name, in the order of the sorted names. |
| Registry.InNameOrder | src/ops/list.rs:26 | The map's values in the order of their sorted keys. |
| Registry.SortedKeys | src/registry.rs:107 | The iteration order of a `BTreeMap`: each key of the set once, strictly ascending. |
| Registry.RegistryPathFrom | src/registry.rs:28-37 | The registry file is templates.json in the project configuration directory. It is an error when that directory cannot be determined. |
| Registry.LoadFromPath | src/registry.rs:49-61 | A missing file gives an empty registry of version 1. A decoded registry is accepted only at version 1, and any other version is rejected with `UnsupportedRegistryVersion`. |
| Registry.SaveThenLoadRegistry | src/registry.rs:49-81 | Saving then loading gives back the saved name map when its version is 1, and the version error otherwise. |
| Registry.Registry.SaveToPath | src/registry.rs:69-81 | Succeeds exactly when the file can be saved. The file then holds the registry's encoding, and nothing but it and its temporary sibling changes. |
| Registry.Load | src/registry.rs:39-46 | Succeeds exactly when the registry is loadable, and returns what `load_from_path` read. An existing file is never rewritten, and a missing one is replaced by the empty registry, which is then the only change. |
| Registry.Save | src/registry.rs:63-66 | Fails without a configuration directory. Otherwise succeeds exactly when the registry file can be saved, and the file system is then exactly the one with the registry's encoding saved. Nothing but the file and its temporary sibling ever changes. |
| Git.GitConfigGet | src/git.rs:6-18 | Exit status 1 reads as "". Any other failure is an error: "failed to execute git" when git cannot start, else "git config KEY failed". Success gives the trimmed stdout. |
| Git.MissingHints | src/git.rs:23-29 | A hint for each empty setting, and only for those, with the name hint before the email hint. |
| Git.IdentityCheckSpec | src/git.rs:20-34 | The identity check passes iff both settings read back non-empty. A failure to read the name is reported as it is. |
| Git.UnsetNameIsReported | src/git.rs:11-31 | An unset user.name always fails the check, and the message lists the name hint first. |
| Git.CheckUserConfig | src/git.rs:20-34 | Gives the identity decision. The email is read only after the name was read without error. |
| Git.RunGit | src/git.rs:36-47 | Succeeds iff git exits with status 0. A failing exit reports the arguments and stderr. |
| Git.GitStep | src/git.rs:49-60 | A failing step carries its own context around `run_git`'s error. |
| Git.InitialCommitMessage | src/git.rs:57-59 | Exactly "Initial commit from template: " followed by the template name. |
| Git.InitialCommitMessageInjective | src/git.rs:58 | Different templates give different commit messages. |
| Git.CommitTrace | src/git.rs:62-68 | Init, add -A and commit are issued in that order, each only after the previous one succeeded. |
| Git.CommitResult | src/git.rs:62-68 | Succeeds iff all three commands succeed. Otherwise it is the error of the first failing one, with that step's context. |
| Git.InitAndCommit | src/git.rs:62-68 | Checks the identity before anything else. A missing identity issues no `git init`; otherwise the commands are the identity queries, then the commit sequence. |
| Completions.ShellName | src/ops/completions.rs:66-73 | Zsh, Bash, Fish and PowerShell map to "zsh", "bash", "fish" and "powershell". |
| Completions.ShellNameInjective | src/ops/completions.rs:66-73 | Different shells have different names. |
| Completions.Version | src/ops/completions/zsh.rs:1 | Each embedded script's `VERSION` is a positive 32-bit value: zsh 3, bash 3 (src/ops/completions/bash.rs:1), fish 2 (src/ops/completions/fish.rs:1) and powershell 3 (src/ops/completions/powershell.rs:1). |
| Completions.ScriptHeader | src/ops/completions/zsh.rs:3-4 | A header ends with the version line for its `VERSION`, and only the zsh header starts with the `#compdef` line. |
| Completions.ParseU32 | src/ops/completions.rs:60 | A parsed number fits in 32 bits and comes from a non-empty text without a sign of minus. |
| Completions.ParseU32RoundTrip | src/ops/completions.rs:60 | Every 32-bit value reads back from its decimal form, with or without '+'. |
| Completions.ParseU32RejectsOverflow | src/ops/completions.rs:60 | A decimal value above 32 bits does not parse. |
| Completions.FirstPrefixed | src/ops/completions.rs:58-59 | The index of the first line with the prefix: no earlier line has it, and it has it. |
| Completions.ParseFirst | src/ops/completions.rs:57-64 | None when no line has the prefix. Otherwise the trimmed, parsed rest of the first such line. |
| Completions.ParseVersion | src/ops/completions.rs:57-64 | A version is only ever found on a line that starts with the version prefix, and it fits in 32 bits. |
| Completions.ScriptHeaderParses | src/ops/completions/zsh.rs:1-4 | Each shell's embedded script, zsh with its `#compdef` line first, parses to its own VERSION whatever follows the header. |
| Completions.FirstVersionLineDecides | src/ops/completions.rs:58-61 | A first version line that does not parse gives None, even when a later line would parse. |
| Completions.UnparsableLine | src/ops/completions.rs:58-61 | The same, for any prefix and any first line whose number does not parse. |
| Completions.CompareVersions | src/ops/completions.rs:32-51 | Succeeds iff the installed version equals VERSION. Below VERSION fails as outdated with the regenerate hint, above fails as newer, and no version comment fails as unverifiable. |
| Completions.CmdCompletions | src/ops/completions.rs:19-55 | Without --check the script is printed. With --check, a file that cannot be read fails with "failed to read". Otherwise it succeeds iff the file's version equals VERSION. |
| Completions.CheckOwnScript | src/ops/completions.rs:27-51 | Checking a freshly written script of the same shell succeeds with the up-to-date line. |
| List.ComputeFlags | src/ops/list.rs:29-38 | A URL has all six flags false. A location is never both missing and a broken link. Each later flag excludes the earlier ones. |
| List.ShownRef | src/ops/list.rs:46 | The commit takes precedence over the git ref as the displayed ref. |
| List.Status | src/ops/list.rs:40-88 | A blank status is exactly the unstyled one, and every other status is a parenthesised note. |
| List.StatusPrecedence | src/ops/list.rs:40-55 | A missing folder, then a broken link, then an empty folder decide the status before any ref. A git ref without a repository to look in is shown as "(git ref X)". |
| List.StruckThroughIffGone | src/ops/list.rs:40-45 | The struck-through red style marks exactly the missing locations and broken links. |
| List.UrlStatus | src/ops/list.rs:30-88 | A URL is never reported missing, broken, empty, a file, a link or without git. It shows its ref, or nothing. |
| List.CommitShownAsCommit | src/ops/list.rs:56-69 | A pinned commit always shows as "(at git commit X)" in blue, unless an existing repository lacks it, which shows "(git X missing)" in red. |
| List.RefLabelledByKind | src/ops/list.rs:64-75 | A git ref that an existing repository lacks is red. One it has is labelled branch, tag or commit by its kind. |
| List.UnpinnedLocalStatus | src/ops/list.rs:80-88 | Without a ref, the remaining statuses apply in the order single file, symlink, no git, blank. |
| List.MakeRow | src/ops/list.rs:90-96 | A row carries the name, the location, the description or "", and the status with its style. |
| List.Pad | src/ops/list.rs:99-101 | A padded cell starts with its text. |
| List.PadWidth | src/ops/list.rs:99-101 | A padded cell is as wide as the wider of the text and the column. |
| List.ColumnWidth | src/ops/list.rs:106-109 | The column width is the maximum of the header's width and every cell's width. |
| List.ColumnsAligned | src/ops/list.rs:115-118 | Every cell of the first three columns is padded to exactly its column's width. |
| List.HeaderAligned | src/ops/list.rs:111-113 | The header cells are padded to the same widths. |
| List.RenderedRows | src/ops/list.rs:115-124 | Each table line starts with its template's name and is printed in the style of its status. |
| List.ListLines | src/ops/list.rs:21-126 | An empty registry prints only the hint. Otherwise there is a header, then one line per template in name order, starting with its name and styled by its status. |
| List.CmdList | src/ops/list.rs:21-26 | Succeeds exactly when the registry is loadable, and then prints the lines of the loaded templates. A registry that fails to load gives its error. The only change to the file system is writing a missing registry file, as loading does. |
| Add.DefaultUrlName | src/ops/add.rs:20-27 | A name derived from a URL contains no '/' and does not end in ".git". |
| Add.DefaultUrlNameIgnoresDecoration | src/ops/add.rs:21-25 | "base/repo" and "base/repo.git/" both give "repo". |
| Add.DefaultLocalName | src/ops/add.rs:33-38 | The last component of the canonical path, or "template" when there is none. |
| Add.NewTemplate | src/ops/add.rs:18-52 | A URL that cannot be cached, or a local path that cannot be canonicalised, fails with its context. Otherwise the name is the given one or the default one. The location is the URL verbatim or the canonical path. git, description, ref and no_cache are as given, and commit and both hooks are unset. |
| Add.CmdAdd | src/ops/add.rs:10-58 | A template that cannot be built fails and changes nothing. A duplicate name fails with `TemplateExists` and rewrites nothing. A new name succeeds exactly when the registry loads and the larger registry can be saved, which is then the only change, and "added NAME -> LOCATION" is printed. Nothing but the registry file and its temporary sibling ever changes. |
| Change.ApplyChanges | src/ops/change.rs:40-53 | A location that cannot be canonicalised fails with "path not found". Otherwise each given field overwrites its own, each absent one is kept. For git and no_cache, `Some(None)` clears the override. |
| Change.NoChangesIsIdentity | src/ops/change.rs:40-53 | With no field given the template is unchanged. |
| Change.ApplyIdempotent | src/ops/change.rs:40-53 | Applying the same change twice is the same as once. |
| Change.DisjointChangesCommute | src/ops/change.rs:40-53 | Changes to different fields can be applied in either order. |
| Change.CmdChange | src/ops/change.rs:9-58 | No field given fails with "no changes specified" before anything is loaded. A new name already registered fails with `TemplateExists` before the lookup, so renaming to its own name fails too. An unknown template gives `TemplateNotFound`. A canonicalisation failure fails too. Each of these refusals leaves the file system as loading left it. Otherwise the command succeeds exactly when the changed registry, with the record under its old key, can be saved; that is then the only change, and "updated NAME" is printed. Nothing but the registry file and its temporary sibling ever changes. |
| Remove.RemoveAll | src/ops/remove.rs:7-9 | The removal loop never adds names. |
| Remove.RemoveAllSpec | src/ops/remove.rs:7-9 | Succeeds iff the names are distinct and all registered. The result is then exactly the map without them. |
| Remove.RemoveAllReportsFirstMissing | src/ops/remove.rs:7-9 | The error is `TemplateNotFound` for the first name that is missing when its turn comes, including a repeated name. |
| Remove.RemoveEach | src/ops/remove.rs:7-9 | Succeeds exactly when `RemoveAll` does, and ends in the state it describes, or stops with its error. |
| Remove.RemovedLines | src/ops/remove.rs:11-13 | One "removed NAME" line per name, in order. |
| Remove.CmdRemove | src/ops/remove.rs:5-15 | The registry is saved once, only after every removal succeeded. Any unknown or repeated name fails and leaves the file system as loading left it. Otherwise the command succeeds exactly when the registry without the listed templates can be saved, which is then the only change. Nothing but the registry file and its temporary sibling ever changes. |
| Update.AfterFetch | src/ops/update.rs:57-75 | Check mode reports "update available" iff the repository is behind. A tag or commit ref is skipped as pinned. A branch ref is checked out. Without a ref the tree is moved to the remote. The tree moves iff neither check mode nor a pinned ref applies. |
| Update.UpdateUrl | src/ops/update.rs:51-76 | The cache is created when missing, and a failure to create it is returned. A fetch failure is fatal with "fetch failed". Otherwise the path continues as `AfterFetch` with a hard reset, and check mode never moves the cache. |
| Update.UpdateLocal | src/ops/update.rs:78-104 | A directory that is not a repository is "skipped (not a git repository)" in both modes. Otherwise it is fetched and continues as `AfterFetch` with a fast-forward pull. |
| Update.FetchFailure | src/ops/update.rs:56-84 | A fetch failure is fatal for a URL template and has no effect on a local one. |
| Update.UpdateTemplate | src/ops/update.rs:43-49 | URLs take the URL path and everything else the local path. Check mode moves nothing. |
| Update.Select | src/ops/update.rs:14-21 | A named template that is missing gives `TemplateNotFound`. A named one is selected alone. Without a name, all templates are selected in name order. |
| Update.ReportsSnoc | src/ops/update.rs:29-34 | One more template adds its line to the reports or to the failures. |
| Update.EveryTemplateAccounted | src/ops/update.rs:28-38 | Every template is reported or listed as failed, once. There are no failures iff every update succeeded. |
| Update.UpdateAll | src/ops/update.rs:28-40 | Every template is tried even after failures, and each success is printed. The loop fails at the end iff some template failed, listing every failure. |
| Update.CmdUpdate | src/ops/update.rs:11-41 | A missing named template fails. An empty selection prints "no templates registered" and succeeds. Otherwise the command prints every success and fails iff some template failed. The only file-system effect is the registry load's: with a loadable registry the file system is exactly `AfterLoad`, nothing but the registry file and its temporary sibling ever changes, and an existing registry is never rewritten. |
| Init.ResolveTemplatePath | src/ops/init.rs:16-53 | A URL without the cache is cloned into a temporary directory, with its own error messages. A cached URL is refreshed unless the policy is `Never`, and refresh failures are ignored. A ref is checked out only for a URL that has one. A local path never fails, and is fetched and reset only when it has no ref, the policy is `Always` and `.git` exists. |
| Init.Dispatch | src/ops/init.rs:106-134 | Fresh and NoGit copy, and Preserve clones instead. Only Fresh commits, with add_and_commit or init_and_commit. The remote is rewritten iff Preserve is used with a URL. NoGit does nothing but copy. |
| Init.Locate | src/ops/init.rs:74-96 | A source that fails to resolve, or is not a directory, fails before the target is created. A dangerous canonical target fails with `DangerousPath` once it exists. The actions are always the start of the resolve-then-create plan. |
| Init.Guard | src/ops/init.rs:74-104 | Passes iff every guard passes. The pre-init hook runs before the emptiness check, and its failure aborts. Strict mode with a non-empty target fails with `TargetNotEmpty`. |
| Init.GuardPlanHasNoEffects | src/ops/init.rs:74-104 | No copy, clone or commit is issued during the guards. |
| Init.ResolveIsEffectFree | src/ops/init.rs:16-53 | Resolving the source puts nothing into the target. |
| Init.DispatchGit | src/ops/init.rs:106-134 | Gives the dispatch's result. A failed copy stops before any git command, and a failed clone stops before the remote is set. |
| Init.CmdInit | src/ops/init.rs:55-148 | An unknown template fails with `TemplateNotFound` and the list hint, before any action. The actions always form a prefix of the plan, and all of it on success. Nothing is copied, cloned or committed unless every guard passed. The dispatch alone decides the result. A post-init hook failure only adds a warning, and there is no warning otherwise. |

## Left out

- `src/main.rs`: argument parsing. The commands take their inputs directly.
- `src/ops/completions/*.rs`: the script bodies. Only each script's
  `VERSION` and its header lines are modelled.
- `src/git_cache.rs`, `is_git_url`, `cache_path_for_url`, `classify_ref`,
  `ref_exists`, `clone_repo`, `checkout_ref`, `fetch_origin`,
  `reset_hard_origin`, `pull_ff_only`, `clone_local`, `set_remote_url` and
  `add_and_commit`: their outcomes are inputs. The cache they create on disk
  is not in the file-system map.
- Subprocess execution, environment variables, clocks and temporary
  directories: these are inputs. A subprocess is a `ProcessOutput`.
- serde JSON, the globset pattern language, Unicode display width and
  colours: these are a codec, a glob engine, a per-character width and a
  `Style` tag.
- List.ListLines: the header's underlining (`src/ops/list.rs:102-113`) is
  dropped. The header line's style is `Normal`, and its text and padding are
  modelled.
- Paths are sequences of components below "/". A relative `XDG_CONFIG_HOME`,
  the empty string included, and non-UTF-8 names (`to_string_lossy`,
  `from_utf8_lossy`) are not modelled.
- A path's `Debug` form in error messages is its text in quotes, without
  escaping.
- `config_dir` on non-unix platforms (`src/utilities.rs:24-29`) is not
  modelled.
- FsCopy.CopyTemplate: walkdir entry errors and the permission copy
  (`src/fs_copy.rs:91-93`, best effort) are not modelled. The walk is over the
  source tree as it stands once the destination exists. A destination inside
  the source is therefore not re-walked.
- FsCopy.CopyTemplate: a symbolic link is a leaf without a target, so it is
  never followed. A source that is a link to a directory fails with "source is
  not a directory", where `Path::is_dir` (`src/fs_copy.rs:48`) and walkdir's
  root follow the link and copy the directory.
- Completions.CmdCompletions: a script path that is a link is reported as
  unreadable, where `read_to_string` (`src/ops/completions.rs:30`) reads through it.
- Persist.LoadFile: a link at the path is reported as unreadable rather than
  read through.
- Registry.Load: a dangling link at the registry path counts as an existing,
  unreadable file, where `path.exists()` (`src/registry.rs:42`, `50`) is false
  and a fresh registry is written.
- Configuration.Load: the same for a dangling link at the configuration path
  (`src/config.rs:27`, `34`).
- Utilities.IsDirEmpty: a link to a directory is reported as unreadable, where
  `read_dir` follows it.
- FsCopy.Walk: the visiting order is any order that reaches a directory
  before its entries, rather than walkdir's particular order.
- Init.CmdInit: every file-system and environment answer of `init` is a field
  of the input `World`, not a call on the `FileSystem` class: `Registry::load`,
  the source's exists/is-directory check, the target's existence,
  `create_dir_all(target)`, `canonicalize`, `$HOME`, `is_dir_empty(target)`,
  `copy_template`, `add_and_commit`, the git commands and the git-mode
  choice. So the registry file that `Registry::load` writes when it is missing
  is not among the command's effects, and the emptiness answer is not tied to
  a target the command has just created. The pipeline's ordering and dispatch
  are proved; the load is proved separately in `Registry.Load`, the emptiness
  check in `Utilities.IsDirEmpty` and the copy in `FsCopy.CopyTemplate`. The
  temporary directory's lifetime is not modelled.
- Change.CmdChange: a renamed template keeps its registry key, as in the code
  (only the record's `name` field changes).
- Add.CmdAdd: `registry.add(template)` takes one argument in `add.rs`. It is
  modelled as adding the record under its name.
- Persist.SaveValue: serialisation is assumed never to fail, and the
  "failed to serialize" paths (`src/registry.rs:73-74`, `src/config.rs:56-57`)
  are not modelled.
- Write-mode conflict handling other than `Strict`, symlink recreation and
  exclude-list merging are left out. `copy_template` (src/fs_copy.rs:47-98)
  takes no write mode and never recreates a link, and `ResolvedOptions::build`
  (src/resolved.rs:15-21) merges no exclude list.
