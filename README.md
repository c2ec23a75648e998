# Blogofile front end and site-template initialiser, modelled in Dafny

Blogofile is a static-site generator driven from the command line. This project
models the decision logic of its command-line front end (`blogofile/main.py`) and
of its site-template initialiser (`blogofile/site_init/__init__.py`):

- **Source-root discovery** (`find_src_root`): starting from an absolute path, the
  directories are examined from the path itself up to `/`, and the first one holding a
  `_config.py` file is the site's source root. If none holds one, the search fails
  with `SourceDirectoryNotFound`.
- **The build lifecycle** (`do_build`): the user's `pre_build` hook, then, inside
  `try`/`except`/`finally`, the writer's `write_site` and the `post_build` hook. A
  failure there runs `build_exception` and re-raises. `build_finally` always runs once
  the `try` block has been entered.
- **The `help` sub-command** (`do_help`): the request `commands` is expanded to every
  sub-command name in sorted order. Each requested name gets the help string of the
  first sub-command action with that name, or `""`. Each page is then printed.
- **The `init` sub-command of main.py** (`do_init`, `_init_bare_site`,
  `_init_plugin_site`): an existing source directory aborts with exit status 1.
  Otherwise a bare site or a plugin site is created.
- **Site-template initialisation** (`site_init`): the table of known templates, the
  guard chain of its `do_init`, and `import_site_init`. That function calls a
  `(function, kwargs)` feature, or else copies a template directory, runs a template
  `.py` file, or extracts a packaged zip archive. It then imports the feature's child
  features.

The filesystem, the user's hooks, argparse's parser objects and the plugin registry
are inputs to the model. What the code writes, creates or calls is appended to an
event log that each operation returns. Modules:

| file | module | models |
|---|---|---|
| `wrappers.dfy` | `Wrappers` | `Option` and `Result` |
| `str_order.dfy` | `StrOrder` | Python's `<` on `str` and `sorted` applied to a set of keys |
| `posix_path.dfy` | `PosixPath` | `os.path.join`, `os.path.split`, `str.startswith`/`endswith`/`replace` on POSIX paths |
| `blogofile_main.dfy` | `BlogofileMain` | `blogofile/main.py` |
| `site_init.dfy` | `SiteInit` | `blogofile/site_init/__init__.py` |

Two points about the code's behaviour:

- `build_finally` and `build_exception` do not run on every failure. `pre_build` runs
  before the `try`, so if it fails neither hook runs (`PreBuildOutsideTry`). The same
  holds when loading the configuration or building the writer fails
  (`SetupFailureStopsBuild`).
- The docstring of `_init_plugin_site` (main.py:392-393) says `_controllers`, `_filters`
  and `_templates` are not copied. The code (main.py:404-405) ignores only `_controllers`
  and `_filters`, and the model follows the code (`IgnoredPluginDirs`).

## Model

| member | source | states |
|---|---|---|
| `BlogofileMain.SplitPath` | blogofile/main.py:225-226 | the base name is empty exactly at the root; otherwise parent plus base name give back the path |
| `BlogofileMain.FindSrcRoot` | blogofile/main.py:214-228 | the directories probed are the start path, then each parent in turn; the result is the nearest ancestor-or-self holding `_config.py`, and no nearer one holds it; `SourceDirectoryNotFound` happens exactly when no ancestor-or-self holds it, after probing the root; the loop ends because each step drops one component |
| `BlogofileMain.DoBuild` | blogofile/main.py:327-345 | the calls made and the way the call ends are those of `BuildRun`, under Python's `try`/`except`/`finally` rules |
| `BlogofileMain.SetupFailureStopsBuild` | blogofile/main.py:328-333 | a failure of `config.init_interactive` (when configuration is loaded) or else of building the writer is the exception that propagates; the calls made stop at that step, and `pre_build`, `build_exception` and `build_finally` do not run |
| `BlogofileMain.PreBuildOutsideTry` | blogofile/main.py:333-334 | a failing `pre_build` ends the build with its own error; neither `build_exception` nor `build_finally` runs |
| `BlogofileMain.SuccessfulBuild` | blogofile/main.py:333-345 | without failures in the `try` block the calls are exactly `pre_build`, `write_site`, `post_build`, `build_finally`, and `build_exception` is never called |
| `BlogofileMain.FailedBuildRunsHandlers` | blogofile/main.py:334-345 | when `write_site` fails, `post_build` is skipped; when `write_site` or `post_build` fails, `build_exception` runs and then `build_finally` |
| `BlogofileMain.FailedBuildReraises` | blogofile/main.py:338-342 | the original exception of `write_site` or `post_build` propagates when the two handlers return |
| `BlogofileMain.BuildSucceedsIff` | blogofile/main.py:327-345 | the build returns normally if and only if no step it reaches raises |
| `BlogofileMain.FinallyRunsOnce` | blogofile/main.py:343-345 | `build_finally` is called if and only if the `try` block is entered, then exactly once and as the last call |
| `BlogofileMain.PreBuildBeforeWriteSite` | blogofile/main.py:333-335 | `pre_build` is called before `write_site` |
| `BlogofileMain.HelpTextFirstMatch` | blogofile/main.py:296-300 | the help text of a sub-command is the `help` of the first action whose `dest` equals it |
| `BlogofileMain.HelpTextNoMatch` | blogofile/main.py:301-302 | with no action of that name the help text is `""` |
| `BlogofileMain.NormaliseCommands` | blogofile/main.py:285-286 | a request naming `commands` becomes every sub-command name once, strictly sorted; any other request is unchanged |
| `BlogofileMain.CollectHelpText` | blogofile/main.py:295-302 | the `helptext` dictionary has exactly the requested names as keys, each mapped to its first-match help text or `""` |
| `BlogofileMain.PagesAllKnown` | blogofile/main.py:305-313 | when every requested name is a sub-command no KeyError escapes, and the output is each requested name's page (`Page`: header, parser help, newline, optional extra help), one after another in request order (`AllPages`) |
| `BlogofileMain.PagesFirstUnknown` | blogofile/main.py:305-308 | the KeyError that escapes names the first requested name that is not a sub-command |
| `BlogofileMain.PrintPages` | blogofile/main.py:304-313 | the printing loop writes, per name, the header `name - help`, the parser's help, a newline and any extra help, and stops with KeyError at the first unknown name |
| `BlogofileMain.DoHelp` | blogofile/main.py:284-313 | an empty request prints the main help and the hint line; otherwise the pages of the normalised request are written; a request naming `commands` never raises KeyError |
| `BlogofileMain.InitBareSite` | blogofile/main.py:366-385 | the source directory is created, then `_config.py` in it with the five fixed lines, then a message that creates nothing |
| `BlogofileMain.InitPluginSite` | blogofile/main.py:388-408 | an uninstalled plugin creates nothing and lists the installed plugins; an installed one copies its `site_src` into the source directory without `_controllers` and `_filters`, then prints |
| `BlogofileMain.DoInit` | blogofile/main.py:348-363 | exit status 1, with only the abort message and nothing created, exactly when the source directory exists; otherwise a bare site when no plugin is named and only a plugin copy when one is |
| `StrOrder.SortedKeys` | blogofile/main.py:286 | `sorted(keys)` holds every key exactly once in strictly increasing order |
| `StrOrder.SortedUnique` | blogofile/main.py:286 | two strictly sorted sequences with the same elements are equal, so the sorted list is unique |
| `PosixPath.SplitJoin` | blogofile/site_init/__init__.py:90-92 | joining a directory and a plain file name puts one separator between them, and splitting the result gives both back |
| `PosixPath.ReplaceAbsent` | blogofile/site_init/__init__.py:91 | `str.replace` leaves a string without the pattern unchanged |
| `PosixPath.ReplaceLeading` | blogofile/site_init/__init__.py:91 | a leading occurrence of the pattern is replaced and the rest is processed on its own |
| `SiteInit.ModuleTable` | blogofile/site_init/__init__.py:34 | the dictionary built from the template rows has a key for exactly the names of the rows |
| `SiteInit.ModuleTableLastWins` | blogofile/site_init/__init__.py:34 | a name maps to the module of its last row |
| `SiteInit.SiteModulesCoverAllSites` | blogofile/site_init/__init__.py:31-34 | every name in `all_sites` is a key of `site_modules` mapped to its row's module, so the lookup after the membership check never fails |
| `SiteInit.FileEventsCopies` | blogofile/site_init/__init__.py:87-94 | within one walked directory a copy happens exactly for the files whose names do not start with `.`, each to its rewritten destination |
| `SiteInit.CopyEventsCopies` | blogofile/site_init/__init__.py:86-94 | over the whole walk a copy happens exactly for the non-dot files, from `join(root, fn)` to that path with `path + os.sep` removed |
| `SiteInit.CopyEventsParentFirst` | blogofile/site_init/__init__.py:90-94 | every copy is immediately preceded by creating its destination's parent directory |
| `SiteInit.DestinationOfRelative` | blogofile/site_init/__init__.py:91 | a file below the template directory whose relative path does not repeat `path + os.sep` lands at that relative path |
| `SiteInit.NestedFileDestination` | blogofile/site_init/__init__.py:90-93 | a file `sub/fn` of the template lands at `sub/fn`, and the directory created for it is `sub` |
| `SiteInit.CopyFiles` | blogofile/site_init/__init__.py:87-94 | the inner loop over one directory's files produces the events of `FileEvents` |
| `SiteInit.CopyDirectory` | blogofile/site_init/__init__.py:84-94 | the walk loop produces the events of `CopyEvents` |
| `SiteInit.ReadEntryOwnBytes` | blogofile/site_init/__init__.py:114 | an entry whose name no later entry repeats is read back with exactly its own bytes |
| `SiteInit.ExtractWrites` | blogofile/site_init/__init__.py:108-115 | a file is written exactly for the entry names not ending in `/`, with the bytes `read` returns for that name; directory entries write nothing |
| `SiteInit.ExtractMakesDirs` | blogofile/site_init/__init__.py:109-110 | every directory entry's directory is created |
| `SiteInit.ExtractParentFirst` | blogofile/site_init/__init__.py:111-114 | every written entry is immediately preceded by creating its parent directory |
| `SiteInit.ExtractZip` | blogofile/site_init/__init__.py:107-115 | the extraction loop produces the events of `ExtractEvents` over the archive's name list |
| `SiteInit.CallFeatureOnlyCalls` | blogofile/site_init/__init__.py:80-82 | a tuple feature is called with its keyword arguments and nothing else happens: no copy and no child features |
| `SiteInit.OwnEventsFirst` | blogofile/site_init/__init__.py:84-123 | a named feature's own effects come first; child features follow only when the feature is a key of `extra_features` |
| `SiteInit.NoChildFeaturesShipped` | blogofile/site_init/__init__.py:28-29 | with the empty `extra_features` table a named feature's import is exactly its own effects or its own error |
| `SiteInit.SelfChildHitsRecursionLimit` | blogofile/site_init/__init__.py:117-123 | a feature listed as its own first child recurses until Python's recursion limit raises |
| `SiteInit.ImportSiteInit` | blogofile/site_init/__init__.py:67-123 | dispatch in the order tuple, existing directory, `.py` file, packaged zip (missing archive: IOError), then the child features depth first, as `Import` states |
| `SiteInit.ImportChildren` | blogofile/site_init/__init__.py:122-123 | the child features are imported in order and the first error ends the loop, as `ImportAll` states |
| `SiteInit.Help` | blogofile/site_init/__init__.py:63-65 | the site-init `do_help` prints two lines and changes nothing; its example command names a known site template |
| `SiteInit.DoInit` | blogofile/site_init/__init__.py:125-140 | an empty or unknown template only prints help; an unlistable directory raises; a non-empty one prints a refusal; only a known template in an empty directory imports anything, after the announcement, and that import is of the template's module from `site_modules` |

## Left out

- Building the argparse parsers (`_setup_*`, `setup_command_parser`, main.py:37-211) and `main` (231-253): library configuration and argv handling. `do_help` receives the request list, the sub-parsers by name and their `_choices_actions` as inputs.
- `set_verbosity` (main.py:256-264): it only sets logging levels.
- `set_src_dir` (main.py:267-281): `main` does not call it. It defaults `src_dir` to the current directory for `init`. Otherwise it calls `find_src_root` and falls back to `abspath(curdir)` on `SourceDirectoryNotFound`. It exits with status 2 when the directory is missing, then changes the working directory and prepends it to `sys.path`. Process state and exits are outside the model; `find_src_root` itself is modelled by `FindSrcRoot`.
- `do_serve`, `do_debug`, `do_info` (main.py:316-324, 411-448): an HTTP server with a polling loop, debugger attachment and printing.
- The module-level `locale` and logging setup (main.py:30-34), and every logging call.
- `zip_site_init` (site_init/__init__.py:36-61): packaging at install time, which changes the working directory.
- `BlogofileMain.FindSrcRoot`: `os.path.abspath` is not modelled. The method receives the absolute, normalised path as its components, so `.` and `..` resolution and the current working directory are outside the model.
- `BlogofileMain.DoBuild`: what the hooks and `write_site` do is not modelled. Each is a step that either returns or raises, and the log names only which one ran.
- `BlogofileMain.DoHelp`: the text printed by `print_help` is not modelled; an event names the parser whose help is printed.
- `BlogofileMain.InitBareSite`: the failures of `os.makedirs(src_dir)` and of `open`/`writelines` on `_config.py` (main.py:378-381) are not modelled; the model always succeeds. An empty `src_dir` passes the `os.path.exists` guard and makes `makedirs` raise, and so does a parent directory that cannot be written. Through it, `BlogofileMain.DoInit` does not model these failures either.
- `BlogofileMain.InitPluginSite`: failures of `plugin.get_by_name`, `plugin.list_plugins` and `os.path.realpath` (main.py:395-402) are not modelled; the plugin registry is the `installed` map.
- `BlogofileMain.InitPluginSite`: `shutil.copytree` is one event; the files it copies and its failure when the destination exists are not modelled.
- `SiteInit.ImportSiteInit`: failures of `util.mkdir`, `shutil.copyfile`, the file writes, the template `.py` module and a called feature function are not modelled; only the missing-archive IOError and the recursion limit are. The order and the arguments of each effect are modelled.
- `SiteInit.DoInit`: the stack available to the import is fixed at Python's default recursion limit of 1000 frames. The frames the caller already uses are not counted.
- `SiteInit.DoInit`: `args.SITE_TEMPLATE` being `None` is modelled as the empty string; both are false in the source's test.
- The filesystem is a set of inputs fixed for the whole call. Effects that later steps could observe are not fed back: for example, a file written earlier in the walk does not appear in a later `os.walk` answer.
