/**
 * The decision logic of blogofile's command-line front end (blogofile/main.py):
 * locating the site's source root, the build lifecycle around the user's hooks,
 * the `help` sub-command and the `init` sub-command. Every call into code outside
 * this file (the filesystem, the user's `_config.py` hooks, the writer, argparse)
 * is an input that answers the call or an event appended to an output log.
 */
module BlogofileMain {
  import opened Wrappers
  import opened StrOrder
  import PosixPath

  // ---------------------------------------------------------------------------
  // find_src_root
  // ---------------------------------------------------------------------------

  /** One component of an absolute, normalised path: never empty. */
  type Name = s: string | s != [] witness "_"

  /** An absolute path as its components below `/`; the root itself is `[]`. */
  type Path = seq<Name>

  /** `os.path.split` on such a path: the parent and the base name, which is empty only for the root. */
  function SplitPath(p: Path): (r: (Path, string))
    ensures p == [] <==> r.1 == []
    ensures p != [] ==> p == r.0 + [r.1]
  {
    if p == [] then ([], []) else (p[..|p| - 1], p[|p| - 1])
  }

  datatype FindError = SourceDirectoryNotFound

  /**
   * Walks from `start` (the path after `os.path.abspath`) towards the root and stops
   * at the first directory in `configDirs`, the directories holding a `_config.py` file.
   * `probes` lists the directories examined, in order.
   */
  method FindSrcRoot(start: Path, configDirs: set<Path>) returns (r: Result<Path, FindError>, probes: seq<Path>)
    ensures 0 < |probes| <= |start| + 1
    ensures forall i :: 0 <= i < |probes| ==> probes[i] == start[..|start| - i]
    ensures forall i :: 0 <= i < |probes| - 1 ==> probes[i] !in configDirs
    ensures r.Ok? ==> r.value == probes[|probes| - 1] && r.value in configDirs
    ensures r.Ok? ==> r.value == start[..|r.value|]
    ensures r.Ok? ==> forall k :: |r.value| < k <= |start| ==> start[..k] !in configDirs
    ensures r.Err? <==> forall k :: 0 <= k <= |start| ==> start[..k] !in configDirs
    ensures r.Err? ==> probes[|probes| - 1] == []
  {
    var path := start;
    probes := [];
    while true
      invariant |path| <= |start| && path == start[..|path|]
      invariant |probes| == |start| - |path|
      invariant forall i :: 0 <= i < |probes| ==> probes[i] == start[..|start| - i]
      invariant forall k :: |path| < k <= |start| ==> start[..k] !in configDirs
      decreases |path|
    {
      probes := probes + [path];
      if path in configDirs {
        r := Ok(path);
        return;
      }
      var (parent, base) := SplitPath(path);
      if |base| == 0 {
        r := Err(SourceDirectoryNotFound);
        assert start[..0] == path;
        return;
      }
      path := parent;
    }
  }

  // ---------------------------------------------------------------------------
  // do_build
  // ---------------------------------------------------------------------------

  /** The foreign calls `do_build` makes, in the order the code lists them. */
  datatype Step =
    | LoadConfig      // config.init_interactive(args), only when load_config
    | MakeWriter      // util.fs_site_path_helper() and Writer(output_dir=...)
    | PreBuild        // config.pre_build()
    | WriteSite       // writer.write_site()
    | PostBuild       // config.post_build()
    | BuildException  // config.build_exception()
    | BuildFinally    // config.build_finally()

  /** How `do_build` ends: it returns, or the exception raised by one step propagates. */
  datatype BuildOutcome = Built | Raised(step: Step)

  /** The steps run before `pre_build`. */
  function Setup(loadConfig: bool): seq<Step>
  {
    (if loadConfig then [LoadConfig] else []) + [MakeWriter]
  }

  predicate SetupSucceeds(loadConfig: bool, fails: set<Step>)
  {
    (loadConfig ==> LoadConfig !in fails) && MakeWriter !in fails
  }

  /** Whether the `try` block is entered: everything before it returned. */
  predicate TryEntered(loadConfig: bool, fails: set<Step>)
  {
    SetupSucceeds(loadConfig, fails) && PreBuild !in fails
  }

  /** The exception pending when the `try` block ends, if any. */
  function TryFailure(fails: set<Step>): Option<Step>
  {
    if WriteSite in fails then Some(WriteSite)
    else if PostBuild in fails then Some(PostBuild)
    else None
  }

  /**
   * The calls `do_build` makes and how it ends, by case: a failure before the `try`
   * block ends the call there; otherwise the `try` block runs up to its first failure,
   * `build_exception` runs if there was one, and `build_finally` runs last. An exception
   * from `build_exception` replaces the pending one, and one from `build_finally`
   * replaces whatever is pending then.
   */
  function BuildRun(loadConfig: bool, fails: set<Step>): (seq<Step>, BuildOutcome)
  {
    if loadConfig && LoadConfig in fails then ([LoadConfig], Raised(LoadConfig))
    else if MakeWriter in fails then (Setup(loadConfig), Raised(MakeWriter))
    else if PreBuild in fails then (Setup(loadConfig) + [PreBuild], Raised(PreBuild))
    else
      var failure := TryFailure(fails);
      var body := if WriteSite in fails then [WriteSite] else [WriteSite, PostBuild];
      var handler := if failure.Some? then [BuildException] else [];
      var pending := if failure.Some? && BuildException in fails then Some(BuildException) else failure;
      var last := if BuildFinally in fails then Some(BuildFinally) else pending;
      (Setup(loadConfig) + [PreBuild] + body + handler + [BuildFinally],
       if last.Some? then Raised(last.value) else Built)
  }

  /**
   * `do_build`. `fails` is the set of steps whose call raises; `trace` is the sequence
   * of calls made and `outcome` how the call ends.
   */
  method DoBuild(loadConfig: bool, fails: set<Step>) returns (trace: seq<Step>, outcome: BuildOutcome)
    ensures trace == BuildRun(loadConfig, fails).0
    ensures outcome == BuildRun(loadConfig, fails).1
  {
    trace := [];
    if loadConfig {
      trace := trace + [LoadConfig];
      if LoadConfig in fails {
        return trace, Raised(LoadConfig);
      }
    }
    trace := trace + [MakeWriter];
    if MakeWriter in fails {
      return trace, Raised(MakeWriter);
    }
    trace := trace + [PreBuild];
    if PreBuild in fails {
      return trace, Raised(PreBuild);
    }
    // try:
    var pending: Option<Step> := None;
    trace := trace + [WriteSite];
    if WriteSite in fails {
      pending := Some(WriteSite);
    } else {
      trace := trace + [PostBuild];
      if PostBuild in fails {
        pending := Some(PostBuild);
      }
    }
    // except: build_exception(); raise
    if pending.Some? {
      trace := trace + [BuildException];
      if BuildException in fails {
        pending := Some(BuildException);
      }
    }
    // finally:
    trace := trace + [BuildFinally];
    if BuildFinally in fails {
      pending := Some(BuildFinally);
    }
    outcome := if pending.Some? then Raised(pending.value) else Built;
  }

  /** A failure before the `try` block: no later step runs and that failure propagates. */
  lemma SetupFailureStopsBuild(loadConfig: bool, fails: set<Step>)
    requires !SetupSucceeds(loadConfig, fails)
    ensures var (trace, outcome) := BuildRun(loadConfig, fails);
      && outcome.Raised? && outcome.step in fails
      && PreBuild !in trace && BuildException !in trace && BuildFinally !in trace
    ensures BuildRun(loadConfig, fails).1
      == Raised(if loadConfig && LoadConfig in fails then LoadConfig else MakeWriter)
    ensures BuildRun(loadConfig, fails).0
      == (if loadConfig && LoadConfig in fails then [LoadConfig] else Setup(loadConfig))
  {
  }

  /** `pre_build` sits outside the `try`: its failure skips `build_exception` and `build_finally`. */
  lemma PreBuildOutsideTry(loadConfig: bool, fails: set<Step>)
    requires SetupSucceeds(loadConfig, fails) && PreBuild in fails
    ensures BuildRun(loadConfig, fails) == (Setup(loadConfig) + [PreBuild], Raised(PreBuild))
    ensures BuildException !in BuildRun(loadConfig, fails).0 && BuildFinally !in BuildRun(loadConfig, fails).0
  {
  }

  /** The successful run calls pre_build, write_site, post_build, build_finally and never build_exception. */
  lemma SuccessfulBuild(loadConfig: bool, fails: set<Step>)
    requires TryEntered(loadConfig, fails) && WriteSite !in fails && PostBuild !in fails
    ensures BuildRun(loadConfig, fails).0 == Setup(loadConfig) + [PreBuild, WriteSite, PostBuild, BuildFinally]
    ensures BuildException !in BuildRun(loadConfig, fails).0
    ensures BuildRun(loadConfig, fails).1 == (if BuildFinally in fails then Raised(BuildFinally) else Built)
  {
  }

  /** A failure in the `try` block: post_build is skipped after write_site fails; build_exception, then build_finally, run. */
  lemma FailedBuildRunsHandlers(loadConfig: bool, fails: set<Step>)
    requires TryEntered(loadConfig, fails) && (WriteSite in fails || PostBuild in fails)
    ensures WriteSite in fails ==>
      BuildRun(loadConfig, fails).0 == Setup(loadConfig) + [PreBuild, WriteSite, BuildException, BuildFinally]
    ensures WriteSite !in fails ==>
      BuildRun(loadConfig, fails).0 == Setup(loadConfig) + [PreBuild, WriteSite, PostBuild, BuildException, BuildFinally]
  {
  }

  /** The original error is re-raised once build_exception and build_finally have returned. */
  lemma FailedBuildReraises(loadConfig: bool, fails: set<Step>)
    requires TryEntered(loadConfig, fails) && (WriteSite in fails || PostBuild in fails)
    requires BuildException !in fails && BuildFinally !in fails
    ensures BuildRun(loadConfig, fails).1 == Raised(if WriteSite in fails then WriteSite else PostBuild)
  {
  }

  /** The call returns normally exactly when no step it reaches raises. */
  lemma BuildSucceedsIff(loadConfig: bool, fails: set<Step>)
    ensures BuildRun(loadConfig, fails).1 == Built <==>
      TryEntered(loadConfig, fails) && WriteSite !in fails && PostBuild !in fails && BuildFinally !in fails
  {
  }

  /** build_finally runs exactly once, as the last call, whenever the `try` block is entered, and never otherwise. */
  lemma FinallyRunsOnce(loadConfig: bool, fails: set<Step>)
    ensures var trace := BuildRun(loadConfig, fails).0;
      && |trace| > 0
      && (BuildFinally in trace <==> TryEntered(loadConfig, fails))
      && (BuildFinally in trace ==> trace[|trace| - 1] == BuildFinally && BuildFinally !in trace[..|trace| - 1])
  {
    var trace := BuildRun(loadConfig, fails).0;
    if TryEntered(loadConfig, fails) {
      var failure := TryFailure(fails);
      var body := if WriteSite in fails then [WriteSite] else [WriteSite, PostBuild];
      var handler := if failure.Some? then [BuildException] else [];
      assert trace[..|trace| - 1] == Setup(loadConfig) + [PreBuild] + body + handler;
    }
  }

  /** pre_build is called before write_site. */
  lemma PreBuildBeforeWriteSite(loadConfig: bool, fails: set<Step>)
    ensures var trace := BuildRun(loadConfig, fails).0;
      forall i, j :: 0 <= i < |trace| && 0 <= j < |trace| && trace[i] == PreBuild && trace[j] == WriteSite ==> i < j
  {
  }

  // ---------------------------------------------------------------------------
  // do_help
  // ---------------------------------------------------------------------------

  /** What the front end writes: `print` lines, stderr text, and the parsers' own help output. */
  datatype Event =
    | Print(line: string)                 // print(line) to stdout
    | PrintErr(line: string)              // print(line, file=sys.stderr)
    | WriteErr(text: string)              // sys.stderr.write(text)
    | PrintMainHelp                       // parser.print_help() of the top-level parser
    | PrintParserHelp(command: string)    // print_help() of a sub-command's parser
    | ExtraHelp(command: string)          // that parser's extra_help()
    | MakeDirs(path: string)              // os.makedirs(path)
    | WriteFile(path: string, content: string)
    | ListPlugins                         // plugin.list_plugins(args)
    | CopyTree(src: string, dst: string, ignored: seq<string>)
  {
    /** Whether the event creates something on disk. */
    predicate Creates()
    {
      MakeDirs? || WriteFile? || CopyTree?
    }
  }

  /** An entry of the sub-parsers' `_choices_actions`: a sub-command name and its help string. */
  datatype ChoiceAction = ChoiceAction(dest: string, help: string)

  /** A sub-command's parser, as far as `do_help` looks at it. */
  datatype SubParser = SubParser(hasExtraHelp: bool)

  datatype HelpError = KeyError(key: string)

  const SeeCommandHelp: string :=
    "\nSee 'blogofile help COMMAND' for more information on a specific command."

  /** The help string of the first action named `command`, or "" when there is none. */
  function HelpText(actions: seq<ChoiceAction>, command: string): string
  {
    if actions == [] then ""
    else if actions[0].dest == command then actions[0].help
    else HelpText(actions[1..], command)
  }

  lemma {:induction false} HelpTextFirstMatch(actions: seq<ChoiceAction>, command: string, i: nat)
    requires i < |actions| && actions[i].dest == command
    requires forall j :: 0 <= j < i ==> actions[j].dest != command
    ensures HelpText(actions, command) == actions[i].help
  {
    if i > 0 {
      HelpTextFirstMatch(actions[1..], command, i - 1);
    }
  }

  lemma {:induction false} HelpTextNoMatch(actions: seq<ChoiceAction>, command: string)
    requires forall j :: 0 <= j < |actions| ==> actions[j].dest != command
    ensures HelpText(actions, command) == ""
  {
    if actions != [] {
      HelpTextNoMatch(actions[1..], command);
    }
  }

  /**
   * The first statement of `do_help`: a request naming "commands" becomes the list
   * of every sub-command, sorted; any other request is kept.
   */
  method NormaliseCommands(command: seq<string>, choices: map<string, SubParser>) returns (requested: seq<string>)
    ensures "commands" in command ==> StrictlySorted(requested) && forall c :: c in requested <==> c in choices
    ensures "commands" !in command ==> requested == command
  {
    if "commands" in command {
      requested := SortedKeys(choices.Keys);
    } else {
      requested := command;
    }
  }

  /** The `helptext` dictionary: a nested loop whose `for ... else` supplies "" when no action matches. */
  method CollectHelpText(requested: seq<string>, actions: seq<ChoiceAction>) returns (helptext: map<string, string>)
    ensures forall c :: c in helptext <==> c in requested
    ensures forall c :: c in helptext ==> helptext[c] == HelpText(actions, c)
  {
    helptext := map[];
    var i := 0;
    while i < |requested|
      invariant i <= |requested|
      invariant forall c :: c in helptext <==> c in requested[..i]
      invariant forall c :: c in helptext ==> helptext[c] == HelpText(actions, c)
    {
      var subcommand := requested[i];
      ghost var before := helptext;
      var j := 0;
      while j < |actions|
        invariant j <= |actions|
        invariant HelpText(actions[j..], subcommand) == HelpText(actions, subcommand)
        invariant helptext == before
      {
        if actions[j].dest == subcommand {
          helptext := helptext[subcommand := actions[j].help];
          break;
        }
        assert actions[j..][1..] == actions[j + 1..];
        j := j + 1;
      }
      if j == |actions| {
        helptext := helptext[subcommand := ""];
      }
      assert requested[..i + 1] == requested[..i] + [subcommand];
      i := i + 1;
    }
    assert requested[..i] == requested;
  }

  /** The events for one known sub-command. */
  function Page(command: string, choices: map<string, SubParser>, actions: seq<ChoiceAction>): seq<Event>
    requires command in choices
  {
    [WriteErr(command + " - " + HelpText(actions, command) + "\n"), PrintParserHelp(command), WriteErr("\n")]
    + (if choices[command].hasExtraHelp then [ExtraHelp(command)] else [])
  }

  /**
   * The second loop of `do_help`: each sub-command's header line, then its parser's help;
   * looking up a name that is not a sub-command raises KeyError right after its header.
   */
  function Pages(requested: seq<string>, choices: map<string, SubParser>, actions: seq<ChoiceAction>): (seq<Event>, Option<HelpError>)
  {
    if requested == [] then ([], None)
    else if requested[0] !in choices then
      ([WriteErr(requested[0] + " - " + HelpText(actions, requested[0]) + "\n")], Some(KeyError(requested[0])))
    else
      var rest := Pages(requested[1..], choices, actions);
      (Page(requested[0], choices, actions) + rest.0, rest.1)
  }

  /** The pages of known sub-commands, one after another in the order requested. */
  function AllPages(requested: seq<string>, choices: map<string, SubParser>, actions: seq<ChoiceAction>): seq<Event>
    requires forall c :: c in requested ==> c in choices
    decreases |requested|
  {
    if requested == [] then []
    else
      var n := |requested| - 1;
      assert forall c :: c in requested[..n] ==> c in requested;
      AllPages(requested[..n], choices, actions) + Page(requested[n], choices, actions)
  }

  lemma {:induction false} AllPagesCons(requested: seq<string>, choices: map<string, SubParser>, actions: seq<ChoiceAction>)
    requires requested != [] && forall c :: c in requested ==> c in choices
    ensures forall c :: c in requested[1..] ==> c in choices
    ensures AllPages(requested, choices, actions)
      == Page(requested[0], choices, actions) + AllPages(requested[1..], choices, actions)
    decreases |requested|
  {
    assert forall c :: c in requested[1..] ==> c in requested;
    var n := |requested| - 1;
    if n > 0 {
      var init := requested[..n];
      assert forall c :: c in init ==> c in requested;
      AllPagesCons(init, choices, actions);
      assert requested[1..][..n - 1] == init[1..];
      assert requested[1..][n - 1] == requested[n];
    }
  }

  /** Every requested name is a sub-command: no KeyError, and each name gets its page, in order. */
  lemma {:induction false} PagesAllKnown(requested: seq<string>, choices: map<string, SubParser>, actions: seq<ChoiceAction>)
    requires forall c :: c in requested ==> c in choices
    ensures Pages(requested, choices, actions).1 == None
    ensures Pages(requested, choices, actions).0 == AllPages(requested, choices, actions)
    ensures |Pages(requested, choices, actions).0| >= 3 * |requested|
  {
    if requested != [] {
      assert requested[0] in requested;
      AllPagesCons(requested, choices, actions);
      PagesAllKnown(requested[1..], choices, actions);
    }
  }

  /** The KeyError names the first requested name that is not a sub-command. */
  lemma {:induction false} PagesFirstUnknown(requested: seq<string>, choices: map<string, SubParser>, actions: seq<ChoiceAction>, i: nat)
    requires i < |requested| && requested[i] !in choices
    requires forall j :: 0 <= j < i ==> requested[j] in choices
    ensures Pages(requested, choices, actions).1 == Some(KeyError(requested[i]))
  {
    if i > 0 {
      PagesFirstUnknown(requested[1..], choices, actions, i - 1);
    }
  }

  lemma PagesStep(requested: seq<string>, i: nat, choices: map<string, SubParser>, actions: seq<ChoiceAction>)
    requires i < |requested|
    ensures requested[i] !in choices ==>
      Pages(requested[i..], choices, actions) ==
      ([WriteErr(requested[i] + " - " + HelpText(actions, requested[i]) + "\n")], Some(KeyError(requested[i])))
    ensures requested[i] in choices ==>
      && Pages(requested[i..], choices, actions).0
         == Page(requested[i], choices, actions) + Pages(requested[i + 1..], choices, actions).0
      && Pages(requested[i..], choices, actions).1 == Pages(requested[i + 1..], choices, actions).1
  {
    assert requested[i..][0] == requested[i];
    assert requested[i..][1..] == requested[i + 1..];
  }

  /** The printing loop of `do_help`, given the `helptext` dictionary built before it. */
  method PrintPages(requested: seq<string>, helptext: map<string, string>, choices: map<string, SubParser>, actions: seq<ChoiceAction>)
    returns (out: seq<Event>, err: Option<HelpError>)
    requires forall c :: c in requested ==> c in helptext && helptext[c] == HelpText(actions, c)
    ensures out == Pages(requested, choices, actions).0
    ensures err == Pages(requested, choices, actions).1
  {
    out := [];
    err := None;
    ghost var total := Pages(requested, choices, actions);
    var i := 0;
    assert requested[i..] == requested;
    while i < |requested|
      invariant i <= |requested|
      invariant err == None
      invariant total.0 == out + Pages(requested[i..], choices, actions).0
      invariant total.1 == Pages(requested[i..], choices, actions).1
    {
      var subcommand := requested[i];
      assert subcommand in requested;
      var header := WriteErr(subcommand + " - " + helptext[subcommand] + "\n");
      assert header == WriteErr(subcommand + " - " + HelpText(actions, subcommand) + "\n");
      PagesStep(requested, i, choices, actions);
      if subcommand !in choices {
        out := out + [header];
        err := Some(KeyError(subcommand));
        return;
      }
      var page := [header, PrintParserHelp(subcommand), WriteErr("\n")];
      if choices[subcommand].hasExtraHelp {
        page := page + [ExtraHelp(subcommand)];
      }
      assert page == Page(subcommand, choices, actions);
      out := out + page;
      i := i + 1;
    }
    assert requested[i..] == [];
  }

  /**
   * `do_help`: returns the normalised request (`args.command` afterwards), the events
   * written, and the KeyError that escapes when a requested name is not a sub-command.
   */
  method DoHelp(command: seq<string>, choices: map<string, SubParser>, actions: seq<ChoiceAction>)
    returns (requested: seq<string>, out: seq<Event>, err: Option<HelpError>)
    ensures "commands" in command ==> StrictlySorted(requested) && forall c :: c in requested <==> c in choices
    ensures "commands" !in command ==> requested == command
    ensures requested == [] ==> out == [PrintMainHelp, Print(SeeCommandHelp)] && err == None
    ensures requested != [] ==> out == Pages(requested, choices, actions).0 && err == Pages(requested, choices, actions).1
    ensures "commands" in command ==> err == None
  {
    requested := NormaliseCommands(command, choices);
    if requested == [] {
      out := [PrintMainHelp, Print(SeeCommandHelp)];
      err := None;
      return;
    }
    var helptext := CollectHelpText(requested, actions);
    out, err := PrintPages(requested, helptext, choices, actions);
    if "commands" in command {
      PagesAllKnown(requested, choices, actions);
    }
  }

  // ---------------------------------------------------------------------------
  // do_init, _init_bare_site, _init_plugin_site
  // ---------------------------------------------------------------------------

  /** The lines `_init_bare_site` writes to `_config.py`, joined. */
  const BareSiteConfig: string :=
    "# -*- coding: utf-8 -*-\n"
    + "# This is a minimal blogofile config file.\n"
    + "# See the docs for config options\n"
    + "# or run `blogofile help init` to learn how to initialize\n"
    + "# a site from a plugin.\n"

  /** The directories `_init_plugin_site` leaves out of the copy. */
  const IgnoredPluginDirs: seq<string> := ["_controllers", "_filters"]

  /** A bare site: the source directory and a minimal `_config.py` in it, then a message. */
  method InitBareSite(srcDir: string) returns (out: seq<Event>)
    ensures |out| == 3
    ensures out[0] == MakeDirs(srcDir)
    ensures out[1] == WriteFile(PosixPath.Join(srcDir, "_config.py"), BareSiteConfig)
    ensures !out[2].Creates()
  {
    var configPath := PosixPath.Join(srcDir, "_config.py");
    out := [MakeDirs(srcDir), WriteFile(configPath, BareSiteConfig)];
    out := out + [Print("_config.py for a bare (do-it-yourself) site written to " + srcDir + "\n"
                        + "If you were expecting more, please see `blogofile init -h`")];
  }

  /**
   * A site copied from an installed plugin's `site_src` directory. `installed` maps each
   * installed plugin's name to the directory of its package (what `plugin.get_by_name`
   * and `os.path.realpath` find); an unknown name lists the installed plugins and creates nothing.
   */
  method InitPluginSite(srcDir: string, plugin: string, installed: map<string, string>) returns (out: seq<Event>)
    ensures plugin !in installed ==> forall e :: e in out ==> !e.Creates()
    ensures plugin !in installed ==> ListPlugins in out
    ensures plugin in installed ==>
      && |out| == 2
      && out[0] == CopyTree(PosixPath.Join(installed[plugin], "site_src"), srcDir, IgnoredPluginDirs)
      && !out[1].Creates()
    ensures forall e :: e in out ==> !e.WriteFile? && !e.MakeDirs?
  {
    if plugin !in installed {
      out := [PrintErr(plugin + " plugin not installed; initialization aborted\n\ninstalled plugins:"), ListPlugins];
      return;
    }
    var siteSrc := PosixPath.Join(installed[plugin], "site_src");
    out := [CopyTree(siteSrc, srcDir, IgnoredPluginDirs)];
    out := out + [Print(plugin + " plugin site_src files written to " + srcDir)];
  }

  /**
   * `init` of main.py: refuses an existing `srcDir` (`existing` is what `os.path.exists`
   * sees) with exit status 1; otherwise makes a bare site when no plugin is named and a
   * plugin site when one is.
   */
  method DoInit(srcDir: string, plugin: Option<string>, existing: set<string>, installed: map<string, string>)
    returns (out: seq<Event>, exit: Option<int>)
    ensures exit == Some(1) <==> srcDir in existing
    ensures exit == None <==> srcDir !in existing
    ensures srcDir in existing ==> out == [PrintErr(srcDir + " already exists; initialization aborted")]
    ensures srcDir in existing ==> forall e :: e in out ==> !e.Creates()
    ensures srcDir !in existing && plugin == None ==>
      MakeDirs(srcDir) in out && WriteFile(PosixPath.Join(srcDir, "_config.py"), BareSiteConfig) in out
      && forall e :: e in out ==> !e.CopyTree?
    ensures srcDir !in existing && plugin.Some? ==> forall e :: e in out ==> !e.WriteFile? && !e.MakeDirs?
    ensures srcDir !in existing && plugin.Some? && plugin.value in installed ==>
      CopyTree(PosixPath.Join(installed[plugin.value], "site_src"), srcDir, IgnoredPluginDirs) in out
  {
    if srcDir in existing {
      out := [PrintErr(srcDir + " already exists; initialization aborted")];
      exit := Some(1);
      return;
    }
    exit := None;
    if plugin == None {
      out := InitBareSite(srcDir);
    } else {
      out := InitPluginSite(srcDir, plugin.value, installed);
      if plugin.value in installed {
        assert out[0] in out;
      }
    }
  }
}
