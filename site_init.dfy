/**
 * Site-template initialisation (blogofile/site_init/__init__.py): the table of known
 * templates, the guard chain of `do_init`, and `import_site_init`, which copies a
 * template directory, runs a template script, or extracts a packaged zip archive into
 * the current directory, then imports the feature's child features. The package's files,
 * `os.walk`'s answers and the zip archives are inputs; the effects on disk and the calls
 * into template code are events appended to a log.
 */
module SiteInit {
  import opened Wrappers
  import opened PosixPath

  // ---------------------------------------------------------------------------
  // The template table
  // ---------------------------------------------------------------------------

  /** A row of `available_sites`: (name of site, description, module). */
  datatype SiteTemplate = SiteTemplate(name: string, description: string, moduleName: string)

  const AvailableSites: seq<SiteTemplate> := [
    SiteTemplate("bare", "A blank site with no blog", "bare"),
    SiteTemplate("simple_blog", "A (very) simple blog with no theme", "simple_blog"),
    SiteTemplate("simple_blog_html5", "A simple blog with HTML5 boilerplate", "simple_blog_html5"),
    SiteTemplate("jinja2_test", "A site based on jinja2 templates", "jinja2_test"),
    SiteTemplate("blog_unit_test", "Blog unit tests (not for end users)", "blog_unit_test")
  ]

  /** Templates left out of the help listing: none. */
  const HiddenSites: seq<SiteTemplate> := []

  const AllSites: seq<SiteTemplate> := AvailableSites + HiddenSites

  /** `[x[0] for x in all_sites]`. */
  function SiteNames(sites: seq<SiteTemplate>): seq<string>
  {
    seq(|sites|, i requires 0 <= i < |sites| => sites[i].name)
  }

  /**
   * `dict((x[0], x[2]) for x in sites)`: a key for every template name, and for a
   * name listed twice the module of its last row.
   */
  function ModuleTable(sites: seq<SiteTemplate>): (table: map<string, string>)
    ensures forall n :: n in table <==> exists i :: 0 <= i < |sites| && sites[i].name == n
    decreases |sites|
  {
    if sites == [] then map[]
    else
      var last := sites[|sites| - 1];
      var earlier := ModuleTable(sites[..|sites| - 1]);
      assert forall i :: 0 <= i < |sites| - 1 ==> sites[..|sites| - 1][i] == sites[i];
      earlier[last.name := last.moduleName]
  }

  const SiteModules: map<string, string> := ModuleTable(AllSites)

  /** Child features imported after a feature: none are configured. */
  const ExtraFeatures: map<string, seq<Feature>> := map[]

  lemma {:induction false} ModuleTableLastWins(sites: seq<SiteTemplate>, i: nat)
    requires i < |sites|
    requires forall j :: i < j < |sites| ==> sites[j].name != sites[i].name
    ensures sites[i].name in ModuleTable(sites)
    ensures ModuleTable(sites)[sites[i].name] == sites[i].moduleName
    decreases |sites|
  {
    if i < |sites| - 1 {
      var init := sites[..|sites| - 1];
      assert init[i] == sites[i];
      ModuleTableLastWins(init, i);
    }
  }

  /**
   * Every name that passes the membership test of `do_init` is a key of `site_modules`,
   * mapped to the module of its row.
   */
  lemma SiteModulesCoverAllSites()
    ensures forall n :: n in SiteNames(AllSites) ==> n in SiteModules
    ensures forall i :: 0 <= i < |AllSites| ==> SiteModules[AllSites[i].name] == AllSites[i].moduleName
  {
    forall n | n in SiteNames(AllSites) ensures n in SiteModules {
      var i :| 0 <= i < |AllSites| && SiteNames(AllSites)[i] == n;
      assert AllSites[i].name == n;
    }
    forall i | 0 <= i < |AllSites| ensures SiteModules[AllSites[i].name] == AllSites[i].moduleName {
      ModuleTableLastWins(AllSites, i);
    }
  }

  // ---------------------------------------------------------------------------
  // Inputs and effects of import_site_init
  // ---------------------------------------------------------------------------

  /** A feature: a template name, or a (function, keyword arguments) tuple. */
  datatype Feature = Named(name: string) | Call(callable: string, kwargs: map<string, string>)

  /** One triple (root, dirs, files) produced by `os.walk`; `dirs` plays no part. */
  datatype WalkStep = WalkStep(root: string, files: seq<string>)

  /** A member of a zip archive, in the archive's order. */
  datatype ZipEntry = ZipEntry(name: string, data: seq<bv8>)

  /** What `import_site_init` can see of the `blogofile.site_init` package. */
  datatype Package = Package(
    dir: string,                          // the directory of the package's __init__.py
    trees: map<string, seq<WalkStep>>,    // each directory and what os.walk yields for it
    files: set<string>,                   // the regular files
    zips: map<string, seq<ZipEntry>>)     // the resources pkgutil.get_data can read

  datatype FsEvent =
    | Mkdir(path: string)                                  // util.mkdir(path)
    | CopyFile(src: string, dst: string)                   // shutil.copyfile(src, dst)
    | WriteBytes(path: string, data: seq<bv8>)             // open(path, 'wb').write(data)
    | LoadSource(path: string)                             // imp.load_source("mod", path)
    | RunModuleInit(path: string)                          // mod.do_init() of that module
    | CallFunction(callable: string, kwargs: map<string, string>)  // feature[0](**feature[1])
    | PrintLine(text: string)                              // print(text)
  {
    predicate WritesFile()
    {
      CopyFile? || WriteBytes?
    }

    /** The file a copy or a write creates. */
    function Written(): string
      requires WritesFile()
    {
      if CopyFile? then dst else path
    }
  }

  datatype InitError =
    | IOError(resource: string)   // pkgutil.get_data found no such archive
    | OSError(path: string)       // os.listdir could not list the directory
    | RecursionLimit              // Python's recursion limit was reached

  /** Each file written is preceded, immediately, by the creation of its parent directory. */
  predicate ParentMadeFirst(log: seq<FsEvent>)
  {
    forall j :: 0 <= j < |log| && log[j].WritesFile() ==> j > 0 && log[j - 1] == Mkdir(Dirname(log[j].Written()))
  }

  lemma ParentMadeFirstConcat(a: seq<FsEvent>, b: seq<FsEvent>)
    requires ParentMadeFirst(a) && ParentMadeFirst(b)
    ensures ParentMadeFirst(a + b)
  {
    forall j | 0 <= j < |a + b| && (a + b)[j].WritesFile()
      ensures j > 0 && (a + b)[j - 1] == Mkdir(Dirname((a + b)[j].Written()))
    {
      if j >= |a| {
        assert (a + b)[j] == b[j - |a|];
        assert (a + b)[j - 1] == b[j - |a| - 1];
      } else {
        assert (a + b)[j] == a[j];
      }
    }
  }

  // ---------------------------------------------------------------------------
  // Copying a template directory
  // ---------------------------------------------------------------------------

  /** Where a walked file goes: its path with every occurrence of `path + os.sep` removed. */
  function Destination(path: string, full: string): string
  {
    ReplaceAll(full, path + [Sep], "")
  }

  /** The events for the files of one directory `root` met by the walk of `path`. */
  function FileEvents(path: string, root: string, files: seq<string>): seq<FsEvent>
    decreases |files|
  {
    if files == [] then []
    else
      var rest := FileEvents(path, root, files[1..]);
      if StartsWith(files[0], ".") then rest
      else
        var full := Join(root, files[0]);
        var dst := Destination(path, full);
        [Mkdir(Dirname(dst)), CopyFile(full, dst)] + rest
  }

  /** The events for the whole walk of the template directory `path`. */
  function CopyEvents(path: string, walk: seq<WalkStep>): seq<FsEvent>
    decreases |walk|
  {
    if walk == [] then []
    else FileEvents(path, walk[0].root, walk[0].files) + CopyEvents(path, walk[1..])
  }

  /** The file `src` of the walk is copied to `dst`: it is not a dot-file and `dst` is its rewritten path. */
  ghost predicate WalkCopies(path: string, walk: seq<WalkStep>, src: string, dst: string)
  {
    exists i, k :: 0 <= i < |walk| && 0 <= k < |walk[i].files|
      && !StartsWith(walk[i].files[k], ".")
      && src == Join(walk[i].root, walk[i].files[k])
      && dst == Destination(path, src)
  }

  lemma {:induction false} FileEventsCopies(path: string, root: string, files: seq<string>, src: string, dst: string)
    ensures CopyFile(src, dst) in FileEvents(path, root, files) <==>
      exists k :: 0 <= k < |files| && !StartsWith(files[k], ".")
        && src == Join(root, files[k]) && dst == Destination(path, src)
    decreases |files|
  {
    if files != [] {
      FileEventsCopies(path, root, files[1..], src, dst);
      var tail := files[1..];
      if exists k :: 0 <= k < |files| && !StartsWith(files[k], ".") && src == Join(root, files[k]) && dst == Destination(path, src) {
        var k :| 0 <= k < |files| && !StartsWith(files[k], ".") && src == Join(root, files[k]) && dst == Destination(path, src);
        if k > 0 {
          assert tail[k - 1] == files[k];
        }
      }
      if exists k :: 0 <= k < |tail| && !StartsWith(tail[k], ".") && src == Join(root, tail[k]) && dst == Destination(path, src) {
        var k :| 0 <= k < |tail| && !StartsWith(tail[k], ".") && src == Join(root, tail[k]) && dst == Destination(path, src);
        assert files[k + 1] == tail[k];
      }
    }
  }

  /**
   * A copy appears in the log exactly for the walked files whose names do not start
   * with ".", each to its rewritten destination.
   */
  lemma {:induction false} CopyEventsCopies(path: string, walk: seq<WalkStep>, src: string, dst: string)
    ensures CopyFile(src, dst) in CopyEvents(path, walk) <==> WalkCopies(path, walk, src, dst)
    decreases |walk|
  {
    if walk != [] {
      FileEventsCopies(path, walk[0].root, walk[0].files, src, dst);
      CopyEventsCopies(path, walk[1..], src, dst);
      var tail := walk[1..];
      if WalkCopies(path, walk, src, dst) {
        var i, k :| 0 <= i < |walk| && 0 <= k < |walk[i].files|
          && !StartsWith(walk[i].files[k], ".") && src == Join(walk[i].root, walk[i].files[k])
          && dst == Destination(path, src);
        if i > 0 {
          assert tail[i - 1] == walk[i];
        }
      }
      if WalkCopies(path, tail, src, dst) {
        var i, k :| 0 <= i < |tail| && 0 <= k < |tail[i].files|
          && !StartsWith(tail[i].files[k], ".") && src == Join(tail[i].root, tail[i].files[k])
          && dst == Destination(path, src);
        assert walk[i + 1] == tail[i];
      }
    }
  }

  lemma {:induction false} FileEventsParentFirst(path: string, root: string, files: seq<string>)
    ensures ParentMadeFirst(FileEvents(path, root, files))
    decreases |files|
  {
    if files != [] {
      FileEventsParentFirst(path, root, files[1..]);
      if !StartsWith(files[0], ".") {
        var full := Join(root, files[0]);
        var dst := Destination(path, full);
        ParentMadeFirstConcat([Mkdir(Dirname(dst)), CopyFile(full, dst)], FileEvents(path, root, files[1..]));
      }
    }
  }

  /** Before each copy the destination's parent directory is created. */
  lemma {:induction false} CopyEventsParentFirst(path: string, walk: seq<WalkStep>)
    ensures ParentMadeFirst(CopyEvents(path, walk))
    decreases |walk|
  {
    if walk != [] {
      FileEventsParentFirst(path, walk[0].root, walk[0].files);
      CopyEventsParentFirst(path, walk[1..]);
      ParentMadeFirstConcat(FileEvents(path, walk[0].root, walk[0].files), CopyEvents(path, walk[1..]));
    }
  }

  /** A path below the template directory loses exactly that directory's prefix. */
  lemma DestinationOfRelative(path: string, rel: string)
    requires !Contains(rel, path + [Sep])
    ensures Destination(path, path + [Sep] + rel) == rel
  {
    ReplaceLeading(path + [Sep], rel, "");
    ReplaceAbsent(rel, path + [Sep], "");
    assert path + [Sep] + rel == (path + [Sep]) + rel;
  }

  lemma JoinBelow(path: string, sub: string, fn: string)
    requires sub != [] && sub[|sub| - 1] != Sep
    requires Sep !in fn
    ensures Join(path + [Sep] + sub, fn) == path + [Sep] + (sub + [Sep] + fn)
  {
    var root := path + [Sep] + sub;
    assert root[|root| - 1] == sub[|sub| - 1];
    SplitJoin(root, fn);
  }

  /**
   * A file at `sub/fn` below the template directory lands at `sub/fn` below the current
   * directory, and the directory created for it is `sub`.
   */
  lemma NestedFileDestination(path: string, sub: string, fn: string)
    requires path != [] && path[|path| - 1] != Sep
    requires sub != [] && sub[|sub| - 1] != Sep
    requires Sep !in fn
    requires !Contains(sub + [Sep] + fn, path + [Sep])
    ensures Destination(path, Join(path + [Sep] + sub, fn)) == sub + [Sep] + fn
    ensures Dirname(Destination(path, Join(path + [Sep] + sub, fn))) == sub
  {
    var root := path + [Sep] + sub;
    var rel := sub + [Sep] + fn;
    JoinBelow(path, sub, fn);
    DestinationOfRelative(path, rel);
    SplitJoin(sub, fn);
  }

  lemma FileEventsStep(path: string, root: string, files: seq<string>, j: nat)
    requires j < |files|
    ensures FileEvents(path, root, files[j..]) ==
      (if StartsWith(files[j], ".") then []
       else [Mkdir(Dirname(Destination(path, Join(root, files[j])))),
             CopyFile(Join(root, files[j]), Destination(path, Join(root, files[j])))])
      + FileEvents(path, root, files[j + 1..])
  {
    assert files[j..][0] == files[j] && files[j..][1..] == files[j + 1..];
  }

  lemma CopyEventsStep(path: string, walk: seq<WalkStep>, i: nat)
    requires i < |walk|
    ensures CopyEvents(path, walk[i..]) == FileEvents(path, walk[i].root, walk[i].files) + CopyEvents(path, walk[i + 1..])
  {
    assert walk[i..][0] == walk[i] && walk[i..][1..] == walk[i + 1..];
  }

  /** The files of one walked directory: dot-files are skipped, the others copied after their directory is made. */
  method CopyFiles(path: string, root: string, files: seq<string>) returns (log: seq<FsEvent>)
    ensures log == FileEvents(path, root, files)
  {
    log := [];
    var j := 0;
    assert files[j..] == files;
    while j < |files|
      invariant j <= |files|
      invariant FileEvents(path, root, files) == log + FileEvents(path, root, files[j..])
    {
      var fn := files[j];
      FileEventsStep(path, root, files, j);
      if StartsWith(fn, ".") {
        j := j + 1;
        continue;
      }
      var full := Join(root, fn);
      var dst := Destination(path, full);
      var dstDir := Dirname(dst);
      log := log + [Mkdir(dstDir), CopyFile(full, dst)];
      j := j + 1;
    }
    assert files[j..] == [];
  }

  /** The copying loop of `import_site_init` over the walk of the template directory `path`. */
  method CopyDirectory(path: string, walk: seq<WalkStep>) returns (log: seq<FsEvent>)
    ensures log == CopyEvents(path, walk)
  {
    log := [];
    var i := 0;
    assert walk[i..] == walk;
    while i < |walk|
      invariant i <= |walk|
      invariant CopyEvents(path, walk) == log + CopyEvents(path, walk[i..])
    {
      CopyEventsStep(path, walk, i);
      var copied := CopyFiles(path, walk[i].root, walk[i].files);
      log := log + copied;
      i := i + 1;
    }
    assert walk[i..] == [];
  }

  // ---------------------------------------------------------------------------
  // Extracting a packaged zip archive
  // ---------------------------------------------------------------------------

  /** `namelist()`: the entry names in archive order. */
  function Names(archive: seq<ZipEntry>): seq<string>
  {
    seq(|archive|, i requires 0 <= i < |archive| => archive[i].name)
  }

  /** `read(name)`: the bytes of the last entry so named (the archive's name index keeps the last). */
  function ReadEntry(archive: seq<ZipEntry>, name: string): seq<bv8>
    decreases |archive|
  {
    if archive == [] then []
    else if archive[|archive| - 1].name == name then archive[|archive| - 1].data
    else ReadEntry(archive[..|archive| - 1], name)
  }

  /** A name ending in "/" only creates that directory; any other is written after its parent is created. */
  function EntryEvents(archive: seq<ZipEntry>, name: string): seq<FsEvent>
  {
    if EndsWith(name, "/") then [Mkdir(name)]
    else [Mkdir(Dirname(name)), WriteBytes(name, ReadEntry(archive, name))]
  }

  function ExtractEvents(archive: seq<ZipEntry>, names: seq<string>): seq<FsEvent>
    decreases |names|
  {
    if names == [] then [] else EntryEvents(archive, names[0]) + ExtractEvents(archive, names[1..])
  }

  /** An entry whose name no later entry repeats is written with exactly its own bytes. */
  lemma {:induction false} ReadEntryOwnBytes(archive: seq<ZipEntry>, i: nat)
    requires i < |archive|
    requires forall j :: i < j < |archive| ==> archive[j].name != archive[i].name
    ensures ReadEntry(archive, archive[i].name) == archive[i].data
    decreases |archive|
  {
    if i < |archive| - 1 {
      var init := archive[..|archive| - 1];
      assert init[i] == archive[i];
      ReadEntryOwnBytes(init, i);
    }
  }

  /**
   * A file is written exactly for the names that do not end in "/", with the bytes
   * `read` returns for that name; directory entries write nothing.
   */
  lemma {:induction false} ExtractWrites(archive: seq<ZipEntry>, names: seq<string>, name: string, data: seq<bv8>)
    ensures WriteBytes(name, data) in ExtractEvents(archive, names) <==>
      name in names && !EndsWith(name, "/") && data == ReadEntry(archive, name)
    decreases |names|
  {
    if names != [] {
      ExtractWrites(archive, names[1..], name, data);
      assert forall x :: x in names <==> x == names[0] || x in names[1..];
    }
  }

  /** Every directory entry's directory is created. */
  lemma {:induction false} ExtractMakesDirs(archive: seq<ZipEntry>, names: seq<string>, name: string)
    requires name in names && EndsWith(name, "/")
    ensures Mkdir(name) in ExtractEvents(archive, names)
    decreases |names|
  {
    if names[0] != name {
      assert name in names[1..];
      ExtractMakesDirs(archive, names[1..], name);
    }
  }

  lemma {:induction false} ExtractParentFirst(archive: seq<ZipEntry>, names: seq<string>)
    ensures ParentMadeFirst(ExtractEvents(archive, names))
    decreases |names|
  {
    if names != [] {
      ExtractParentFirst(archive, names[1..]);
      ParentMadeFirstConcat(EntryEvents(archive, names[0]), ExtractEvents(archive, names[1..]));
    }
  }

  lemma ExtractEventsStep(archive: seq<ZipEntry>, names: seq<string>, i: nat)
    requires i < |names|
    ensures ExtractEvents(archive, names[i..]) == EntryEvents(archive, names[i]) + ExtractEvents(archive, names[i + 1..])
  {
    assert names[i..][0] == names[i] && names[i..][1..] == names[i + 1..];
  }

  /** One name of the archive: a directory entry is created, a file entry written below its created parent. */
  method ExtractEntry(archive: seq<ZipEntry>, name: string) returns (events: seq<FsEvent>)
    ensures events == EntryEvents(archive, name)
  {
    if EndsWith(name, "/") {
      events := [Mkdir(name)];
    } else {
      events := [Mkdir(Dirname(name)), WriteBytes(name, ReadEntry(archive, name))];
    }
  }

  /** The extraction loop of `import_site_init`. */
  method ExtractZip(archive: seq<ZipEntry>) returns (log: seq<FsEvent>)
    ensures log == ExtractEvents(archive, Names(archive))
  {
    var names := Names(archive);
    ghost var total := ExtractEvents(archive, names);
    log := [];
    var i := 0;
    assert names[i..] == names;
    while i < |names|
      invariant i <= |names|
      invariant total == log + ExtractEvents(archive, names[i..])
    {
      var name := names[i];
      ExtractEventsStep(archive, names, i);
      var events := ExtractEntry(archive, name);
      log := log + events;
      i := i + 1;
    }
    assert names[i..] == [];
  }

  // ---------------------------------------------------------------------------
  // import_site_init
  // ---------------------------------------------------------------------------

  /**
   * The feature's own effects, in the order the source tries the forms: an existing
   * directory, then a `.py` file, then a packaged zip archive.
   */
  function OwnEvents(name: string, pkg: Package): Result<seq<FsEvent>, InitError>
  {
    var path := Join(pkg.dir, name);
    if path in pkg.trees then Ok(CopyEvents(path, pkg.trees[path]))
    else if path in pkg.files && EndsWith(path, ".py") then Ok([LoadSource(path), RunModuleInit(path)])
    else if name + ".zip" in pkg.zips then
      var archive := pkg.zips[name + ".zip"];
      Ok(ExtractEvents(archive, Names(archive)))
    else Err(IOError(name + ".zip"))
  }

  /**
   * The log and the escaping error of `import_site_init(feature)` with `depth` stack
   * frames left before Python's recursion limit.
   */
  function Import(feature: Feature, pkg: Package, extra: map<string, seq<Feature>>, depth: nat): (seq<FsEvent>, Option<InitError>)
    decreases depth, 0
  {
    if depth == 0 then ([], Some(RecursionLimit))
    else match feature
      case Call(f, kwargs) => ([CallFunction(f, kwargs)], None)
      case Named(name) =>
        match OwnEvents(name, pkg)
        case Err(e) => ([], Some(e))
        case Ok(own) =>
          if name in extra then
            var children := ImportAll(extra[name], pkg, extra, depth - 1);
            (own + children.0, children.1)
          else (own, None)
  }

  /** The child features imported one after the other, stopping at the first error. */
  function ImportAll(features: seq<Feature>, pkg: Package, extra: map<string, seq<Feature>>, depth: nat): (seq<FsEvent>, Option<InitError>)
    decreases depth, |features|
  {
    if features == [] then ([], None)
    else
      var first := Import(features[0], pkg, extra, depth);
      if first.1.Some? then first
      else
        var rest := ImportAll(features[1..], pkg, extra, depth);
        (first.0 + rest.0, rest.1)
  }

  /** A tuple feature is called and nothing else happens: no copy, no child features. */
  lemma CallFeatureOnlyCalls(f: string, kwargs: map<string, string>, pkg: Package, extra: map<string, seq<Feature>>, depth: nat)
    requires depth > 0
    ensures Import(Call(f, kwargs), pkg, extra, depth) == ([CallFunction(f, kwargs)], None)
  {
  }

  /** A named feature's own effects come first; child features are imported only when `extra` lists it. */
  lemma OwnEventsFirst(name: string, pkg: Package, extra: map<string, seq<Feature>>, depth: nat)
    requires depth > 0 && OwnEvents(name, pkg).Ok?
    ensures var r := Import(Named(name), pkg, extra, depth);
      && |r.0| >= |OwnEvents(name, pkg).value|
      && r.0[..|OwnEvents(name, pkg).value|] == OwnEvents(name, pkg).value
    ensures name !in extra ==> Import(Named(name), pkg, extra, depth) == (OwnEvents(name, pkg).value, None)
  {
    var own := OwnEvents(name, pkg).value;
    if name in extra {
      var children := ImportAll(extra[name], pkg, extra, depth - 1);
      assert (own + children.0)[..|own|] == own;
    }
  }

  /** With the shipped (empty) child-feature table nothing is ever imported recursively. */
  lemma NoChildFeaturesShipped(name: string, pkg: Package, depth: nat)
    requires depth > 0
    ensures Import(Named(name), pkg, ExtraFeatures, depth) ==
      match OwnEvents(name, pkg)
      case Ok(own) => (own, None)
      case Err(e) => ([], Some(e))
  {
  }

  /** A feature that lists itself as a child recurses until the recursion limit is hit. */
  lemma {:induction false} SelfChildHitsRecursionLimit(name: string, pkg: Package, extra: map<string, seq<Feature>>, depth: nat)
    requires OwnEvents(name, pkg).Ok?
    requires name in extra && |extra[name]| > 0 && extra[name][0] == Named(name)
    ensures Import(Named(name), pkg, extra, depth).1 == Some(RecursionLimit)
    decreases depth
  {
    if depth > 0 {
      SelfChildHitsRecursionLimit(name, pkg, extra, depth - 1);
    }
  }

  /** `import_site_init`: dispatch on the feature's form, then its child features, depth first. */
  method ImportSiteInit(feature: Feature, pkg: Package, extra: map<string, seq<Feature>>, depth: nat)
    returns (log: seq<FsEvent>, err: Option<InitError>)
    ensures log == Import(feature, pkg, extra, depth).0
    ensures err == Import(feature, pkg, extra, depth).1
    decreases depth, 0
  {
    if depth == 0 {
      return [], Some(RecursionLimit);
    }
    if feature.Call? {
      return [CallFunction(feature.callable, feature.kwargs)], None;
    }
    var name := feature.name;
    var path := Join(pkg.dir, name);
    if path in pkg.trees {
      log := CopyDirectory(path, pkg.trees[path]);
    } else if path in pkg.files && EndsWith(path, ".py") {
      log := [LoadSource(path), RunModuleInit(path)];
    } else {
      var resource := name + ".zip";
      if resource !in pkg.zips {
        return [], Some(IOError(resource));
      }
      log := ExtractZip(pkg.zips[resource]);
    }
    assert OwnEvents(name, pkg) == Ok(log);
    err := None;
    if name in extra {
      var childLog, childErr := ImportChildren(extra[name], pkg, extra, depth - 1);
      log := log + childLog;
      err := childErr;
    }
  }

  /** The loop over a feature's child features; an exception from one ends it. */
  method ImportChildren(children: seq<Feature>, pkg: Package, extra: map<string, seq<Feature>>, depth: nat)
    returns (log: seq<FsEvent>, err: Option<InitError>)
    ensures log == ImportAll(children, pkg, extra, depth).0
    ensures err == ImportAll(children, pkg, extra, depth).1
    decreases depth, 1
  {
    log := [];
    err := None;
    var i := 0;
    assert children[i..] == children;
    while i < |children|
      invariant i <= |children|
      invariant ImportAll(children, pkg, extra, depth).0 == log + ImportAll(children[i..], pkg, extra, depth).0
      invariant ImportAll(children, pkg, extra, depth).1 == ImportAll(children[i..], pkg, extra, depth).1
    {
      assert children[i..][0] == children[i] && children[i..][1..] == children[i + 1..];
      var childLog, childErr := ImportSiteInit(children[i], pkg, extra, depth);
      log := log + childLog;
      if childErr.Some? {
        err := childErr;
        return;
      }
      i := i + 1;
    }
    assert children[i..] == [];
  }

  // ---------------------------------------------------------------------------
  // do_init
  // ---------------------------------------------------------------------------

  /** What the site-init `do_help` prints: two lines, the second an example command naming a known template. */
  function Help(): (lines: seq<FsEvent>)
    ensures |lines| == 2 && forall e :: e in lines ==> e.PrintLine? && !Imports(e)
    ensures exists t :: t in SiteNames(AllSites) && lines[1] == PrintLine("   blogofile init " + t + "\n")
  {
    var example := "simple_blog";
    assert SiteNames(AllSites)[1] == AllSites[1].name == example;
    [PrintLine("For example, create a simple site with a blog and no theme:\n"),
     PrintLine("   blogofile init " + example + "\n")]
  }

  /** Python's default recursion limit, the stack available to the import. */
  const RecursionBudget: nat := 1000

  /** Whether an event changes the disk or runs template code, as opposed to printing. */
  predicate Imports(e: FsEvent)
  {
    !e.PrintLine?
  }

  /**
   * `do_init`: a missing or unknown template only prints help; a directory that does
   * not list as empty (`listing` is what `os.listdir(src_dir)` returns, `None` when it
   * raises) is refused; otherwise the template's module is imported.
   */
  method DoInit(siteTemplate: string, srcDir: string, listing: Option<seq<string>>, pkg: Package)
    returns (log: seq<FsEvent>, err: Option<InitError>)
    ensures siteTemplate == "" || siteTemplate !in SiteNames(AllSites) ==> log == Help() && err == None
    ensures siteTemplate in SiteNames(AllSites) && listing == None ==> log == [] && err == Some(OSError(srcDir))
    ensures siteTemplate in SiteNames(AllSites) && listing.Some? && listing.value != [] ==>
      log == [PrintLine("This directory is not empty, will not attempt to initialize here : " + srcDir)]
      && err == None
    ensures (exists j :: 0 <= j < |log| && Imports(log[j])) ==>
      siteTemplate != "" && siteTemplate in SiteNames(AllSites) && listing == Some([])
    ensures siteTemplate != "" && siteTemplate in SiteNames(AllSites) && listing == Some([]) ==>
      && siteTemplate in SiteModules
      && |log| > 0
      && log[0] == PrintLine("Initializing the " + siteTemplate + " site template...")
      && log[1..] == Import(Named(SiteModules[siteTemplate]), pkg, ExtraFeatures, RecursionBudget).0
      && err == Import(Named(SiteModules[siteTemplate]), pkg, ExtraFeatures, RecursionBudget).1
  {
    if siteTemplate == "" {
      return Help(), None;
    }
    if siteTemplate !in SiteNames(AllSites) {
      return Help(), None;
    }
    if listing == None {
      return [], Some(OSError(srcDir));
    }
    if |listing.value| > 0 {
      return [PrintLine("This directory is not empty, will not attempt to initialize here : " + srcDir)], None;
    }
    var announce := PrintLine("Initializing the " + siteTemplate + " site template...");
    SiteModulesCoverAllSites();
    var template := SiteModules[siteTemplate];
    var imported;
    imported, err := ImportSiteInit(Named(template), pkg, ExtraFeatures, RecursionBudget);
    log := [announce] + imported;
  }
}
