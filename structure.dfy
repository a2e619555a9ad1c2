/**
 * The file-structure planner: the ordered list of directories and template
 * files a project gets, which depends on the framework, the CSS tool and the
 * language.
 */
module Structure {
  import opened Common
  import opened Options
  import Html
  import Entry
  import Styles

  /** One entry of the plan; a directory has empty content. */
  datatype FileDescriptor = FileDescriptor(path: Path, content: string, isDirectory: bool)

  /**
   * The root component and the Next.js layout come from a template module that
   * is not part of this model; they are taken as given functions of the options.
   */
  datatype Components = Components(appComponent: ProjectOptions -> string, nextLayout: ProjectOptions -> string)

  function Dir(p: Path): FileDescriptor
  {
    FileDescriptor(p, "", true)
  }

  function File(p: Path, content: string): FileDescriptor
  {
    FileDescriptor(p, content, false)
  }

  /** The stylesheet extension: `scss` for SCSS, `css` for everything else. */
  function GetCssExtension(t: CssTool): (ext: string)
    ensures ext == "scss" <==> t == Scss
    ensures ext == "css" <==> t != Scss
  {
    if t == Scss then "scss" else "css"
  }

  /** `src/main.*`: Vue's bootstrap is a plain module (`ts`/`js`), React's may hold JSX (`tsx`/`jsx`). */
  function MainPath(o: ProjectOptions): Path
  {
    ["src", "main." + (if o.framework == Vue then ScriptExt(o.language) else ComponentExt(o.language))]
  }

  /** The root component: a single-file component for Vue, `App.tsx`/`App.jsx` otherwise. */
  function AppPath(o: ProjectOptions): Path
  {
    if o.framework == Vue then ["src", "App.vue"] else ["src", "App." + ComponentExt(o.language)]
  }

  function StylesheetPath(t: CssTool): Path
  {
    ["src", "index." + GetCssExtension(t)]
  }

  const ViteEnvPath: Path := ["src", "vite-env.d.ts"]

  function NextLayout(o: ProjectOptions, c: Components): seq<FileDescriptor>
  {
    var ext := ComponentExt(o.language);
    [Dir(["src", "app"]),
     File(["src", "app", "layout." + ext], c.nextLayout(o)),
     File(["src", "app", "page." + ext], c.appComponent(o))]
    + (if o.cssTool == TailwindCss then [File(["src", "app", "globals.css"], Styles.GenerateCssFile(o))] else [])
  }

  function AstroLayout(o: ProjectOptions, c: Components): seq<FileDescriptor>
  {
    [Dir(["src", "pages"]), File(["src", "pages", "index.astro"], c.appComponent(o))]
    + (if o.cssTool == TailwindCss
       then [File(["src", "styles", "globals.css"], Styles.GenerateCssFile(o)), Dir(["src", "styles"])]
       else [])
  }

  function BundlerLayout(o: ProjectOptions, c: Components): seq<FileDescriptor>
  {
    BundlerFiles(o, Html.GenerateIndexHtml(o), Entry.GenerateMainFile(o), c.appComponent(o),
                 Styles.GenerateCssFile(o), Entry.GenerateViteEnvFile(o))
  }

  /** The bundler layout around the given file contents. */
  function BundlerFiles(o: ProjectOptions, html: string, main: string, app: string, css: string, env: string): seq<FileDescriptor>
  {
    [File(["index.html"], html), File(MainPath(o), main), File(AppPath(o), app), File(StylesheetPath(o.cssTool), css)]
    + (if o.framework == React && o.language == TypeScript then [File(ViteEnvPath, env)] else [])
  }

  /** The plan: the `src` directory first, then the framework's own layout. */
  function FileStructure(o: ProjectOptions, c: Components): (files: seq<FileDescriptor>)
    ensures |files| > 0 && files[0] == Dir(["src"])
  {
    [Dir(["src"])]
    + match o.framework
      case NextJs => NextLayout(o, c)
      case Astro => AstroLayout(o, c)
      case React => BundlerLayout(o, c)
      case Vue => BundlerLayout(o, c)
  }

  /** Builds the plan by appending one descriptor at a time, branch by branch. */
  method GetFileStructure(o: ProjectOptions, c: Components) returns (files: seq<FileDescriptor>)
    ensures files == FileStructure(o, c)
  {
    files := [];
    var ext := ComponentExt(o.language);
    files := files + [Dir(["src"])];
    match o.framework {
      case NextJs =>
        files := files + [Dir(["src", "app"])];
        files := files + [File(["src", "app", "layout." + ext], c.nextLayout(o))];
        files := files + [File(["src", "app", "page." + ext], c.appComponent(o))];
        if o.cssTool == TailwindCss {
          files := files + [File(["src", "app", "globals.css"], Styles.GenerateCssFile(o))];
        }
      case Astro =>
        files := files + [Dir(["src", "pages"])];
        files := files + [File(["src", "pages", "index.astro"], c.appComponent(o))];
        if o.cssTool == TailwindCss {
          files := files + [File(["src", "styles", "globals.css"], Styles.GenerateCssFile(o))];
          files := files + [Dir(["src", "styles"])];
        }
      case React | Vue =>
        files := files + [File(["index.html"], Html.GenerateIndexHtml(o))];
        var mainExt := if o.framework == Vue then ScriptExt(o.language) else ext;
        files := files + [File(["src", "main." + mainExt], Entry.GenerateMainFile(o))];
        var appPath := if o.framework == Vue then ["src", "App.vue"] else ["src", "App." + ext];
        files := files + [File(appPath, c.appComponent(o))];
        var cssExt := GetCssExtension(o.cssTool);
        files := files + [File(["src", "index." + cssExt], Styles.GenerateCssFile(o))];
        if o.framework == React && o.language == TypeScript {
          files := files + [File(ViteEnvPath, Entry.GenerateViteEnvFile(o))];
        }
    }
  }

  // ---------------------------------------------------------------------------
  // Properties of the plan

  /** Some descriptor of `files` has path `p`. */
  ghost predicate Lists(files: seq<FileDescriptor>, p: Path)
  {
    exists i :: 0 <= i < |files| && files[i].path == p
  }

  ghost predicate DistinctPaths(files: seq<FileDescriptor>)
  {
    forall i, j :: 0 <= i < j < |files| ==> files[i].path != files[j].path
  }

  lemma {:induction false} DistinctPrepend(d: FileDescriptor, rest: seq<FileDescriptor>)
    requires DistinctPaths(rest)
    requires forall e :: e in rest ==> e.path != d.path
    ensures DistinctPaths([d] + rest)
  {
    var files := [d] + rest;
    forall i, j | 0 <= i < j < |files| ensures files[i].path != files[j].path {
      if i == 0 {
        assert files[j] in rest;
      } else {
        assert files[i] == rest[i - 1] && files[j] == rest[j - 1];
      }
    }
  }

  /** The Next.js layout around the given contents lists no path twice. */
  lemma NextFilesDistinct(ext: string, tailwind: bool, layoutText: string, pageText: string, cssText: string)
    ensures DistinctPaths([Dir(["src"])]
                          + ([Dir(["src", "app"]), File(["src", "app", "layout." + ext], layoutText),
                              File(["src", "app", "page." + ext], pageText)]
                             + (if tailwind then [File(["src", "app", "globals.css"], cssText)] else [])))
  {
    var tail := if tailwind then [File(["src", "app", "globals.css"], cssText)] else [];
    var page := File(["src", "app", "page." + ext], pageText);
    var layout := File(["src", "app", "layout." + ext], layoutText);
    assert |"layout." + ext| != |"page." + ext|;
    assert forall e :: e in tail ==> e.path == ["src", "app", "globals.css"];
    assert ("page." + ext)[0] == 'p' && ("layout." + ext)[0] == 'l';
    DistinctPrepend(page, tail);
    DistinctPrepend(layout, [page] + tail);
    DistinctPrepend(Dir(["src", "app"]), [layout] + ([page] + tail));
    assert [layout, page] + tail == [layout] + ([page] + tail);
    assert [Dir(["src", "app"]), layout, page] + tail == [Dir(["src", "app"])] + ([layout] + ([page] + tail));
    DistinctPrepend(Dir(["src"]), [Dir(["src", "app"]), layout, page] + tail);
  }

  lemma NextLayoutDistinct(o: ProjectOptions, c: Components)
    ensures DistinctPaths([Dir(["src"])] + NextLayout(o, c))
  {
    NextFilesDistinct(ComponentExt(o.language), o.cssTool == TailwindCss, c.nextLayout(o), c.appComponent(o),
                      Styles.GenerateCssFile(o));
  }

  lemma AstroLayoutDistinct(o: ProjectOptions, c: Components)
    ensures DistinctPaths([Dir(["src"])] + AstroLayout(o, c))
  {
    var layout := AstroLayout(o, c);
    var tail := layout[2..];
    if o.cssTool == TailwindCss {
      assert tail == [tail[0]] + tail[1..];
      DistinctPrepend(tail[0], tail[1..]);
    }
    assert layout[1..] == [layout[1]] + tail;
    DistinctPrepend(layout[1], tail);
    assert layout == [layout[0]] + layout[1..];
    DistinctPrepend(layout[0], layout[1..]);
    DistinctPrepend(Dir(["src"]), layout);
  }

  /** The four files of a bundler layout carry four different names. */
  lemma BundlerNamesDiffer(o: ProjectOptions)
    ensures var main, app, css := MainPath(o)[1], AppPath(o)[1], StylesheetPath(o.cssTool)[1];
            main != app && main != css && app != css
            && main != ViteEnvPath[1] && app != ViteEnvPath[1] && css != ViteEnvPath[1]
  {
    var main, app, css := MainPath(o)[1], AppPath(o)[1], StylesheetPath(o.cssTool)[1];
    assert main[0] == 'm' && app[0] == 'A' && css[0] == 'i' && ViteEnvPath[1][0] == 'v';
  }

  lemma BundlerLayoutDistinct(o: ProjectOptions, html: string, main: string, app: string, css: string, env: string)
    requires o.framework == React || o.framework == Vue
    ensures DistinctPaths([Dir(["src"])] + BundlerFiles(o, html, main, app, css, env))
  {
    var tail := if o.framework == React && o.language == TypeScript then [File(ViteEnvPath, env)] else [];
    var f0, f1, f2, f3 := File(["index.html"], html), File(MainPath(o), main), File(AppPath(o), app),
                          File(StylesheetPath(o.cssTool), css);
    BundlerNamesDiffer(o);
    assert forall e :: e in tail ==> e.path == ViteEnvPath;
    DistinctPrepend(f3, tail);
    DistinctPrepend(f2, [f3] + tail);
    DistinctPrepend(f1, [f2] + ([f3] + tail));
    DistinctPrepend(f0, [f1] + ([f2] + ([f3] + tail)));
    assert [f0, f1, f2, f3] + tail == [f0] + ([f1] + ([f2] + ([f3] + tail)));
    DistinctPrepend(Dir(["src"]), [f0, f1, f2, f3] + tail);
  }

  /** No path is planned twice. */
  lemma PathsDistinct(o: ProjectOptions, c: Components)
    ensures DistinctPaths(FileStructure(o, c))
  {
    match o.framework {
      case NextJs => NextLayoutDistinct(o, c);
      case Astro => AstroLayoutDistinct(o, c);
      case React | Vue =>
        BundlerLayoutDistinct(o, Html.GenerateIndexHtml(o), Entry.GenerateMainFile(o), c.appComponent(o),
                              Styles.GenerateCssFile(o), Entry.GenerateViteEnvFile(o));
    }
  }

  /** The segment names the planner uses: directories without a dot, files with one. */
  lemma SegmentNames(ext: string)
    ensures IsDirName("src") && IsDirName("app") && IsDirName("pages") && IsDirName("styles")
    ensures '.' in "layout." + ext && '.' in "page." + ext && '.' in "main." + ext && '.' in "App." + ext
    ensures '.' in "index." + ext && '.' in "index.html" && '.' in "index.astro"
    ensures '.' in "globals.css" && '.' in "App.vue" && '.' in "vite-env.d.ts"
  {
    assert ("layout." + ext)[6] == '.';
    assert ("page." + ext)[4] == '.';
    assert ("main." + ext)[4] == '.';
    assert ("App." + ext)[3] == '.';
    assert ("index." + ext)[5] == '.';
    assert "index.html"[5] == '.';
    assert "index.astro"[5] == '.';
    assert "globals.css"[7] == '.';
    assert "App.vue"[3] == '.';
    assert "vite-env.d.ts"[8] == '.';
  }

  /**
   * A descriptor as the planner makes them: a directory has empty content and
   * dot-free names, a file a dotted name under dot-free directories, and all
   * of them live under `src` except the page shell.
   */
  ghost predicate WellShaped(d: FileDescriptor)
  {
    && (d.isDirectory ==> d.content == "" && IsDirPath(d.path))
    && (!d.isDirectory ==> IsFilePath(d.path))
    && (d.path == ["index.html"] || (d.path != [] && d.path[0] == "src"))
  }

  /** A dotted file in a dot-free directory under `src` is well shaped. */
  lemma NestedFileShaped(dir: string, name: string, content: string)
    requires IsDirName(dir) && '.' in name
    ensures WellShaped(File(["src", dir, name], content))
  {
    assert Parent(["src", dir, name]) == ["src", dir];
    SegmentNames("");
  }

  lemma AppendShaped(a: seq<FileDescriptor>, b: seq<FileDescriptor>)
    requires forall d :: d in a ==> WellShaped(d)
    requires forall d :: d in b ==> WellShaped(d)
    ensures forall d :: d in a + b ==> WellShaped(d)
  {
  }

  lemma NextLayoutShapes(o: ProjectOptions, c: Components)
    ensures forall d :: d in NextLayout(o, c) ==> WellShaped(d)
  {
    var ext := ComponentExt(o.language);
    SegmentNames(ext);
    NestedFileShaped("app", "layout." + ext, c.nextLayout(o));
    NestedFileShaped("app", "page." + ext, c.appComponent(o));
    NestedFileShaped("app", "globals.css", Styles.GenerateCssFile(o));
    assert WellShaped(Dir(["src", "app"]));
    AppendShaped([Dir(["src", "app"]), File(["src", "app", "layout." + ext], c.nextLayout(o)),
                  File(["src", "app", "page." + ext], c.appComponent(o))],
                 if o.cssTool == TailwindCss then [File(["src", "app", "globals.css"], Styles.GenerateCssFile(o))] else []);
  }

  lemma AstroLayoutShapes(o: ProjectOptions, c: Components)
    ensures forall d :: d in AstroLayout(o, c) ==> WellShaped(d)
  {
    SegmentNames("");
    NestedFileShaped("pages", "index.astro", c.appComponent(o));
    NestedFileShaped("styles", "globals.css", Styles.GenerateCssFile(o));
    assert WellShaped(Dir(["src", "pages"])) && WellShaped(Dir(["src", "styles"]));
    AppendShaped([Dir(["src", "pages"]), File(["src", "pages", "index.astro"], c.appComponent(o))],
                 if o.cssTool == TailwindCss
                 then [File(["src", "styles", "globals.css"], Styles.GenerateCssFile(o)), Dir(["src", "styles"])]
                 else []);
  }

  /** A dotted file directly under `src` is well shaped. */
  lemma SrcFileShaped(p: Path, content: string)
    requires |p| == 2 && p[0] == "src" && '.' in p[1]
    ensures WellShaped(File(p, content))
  {
    assert Parent(p) == ["src"];
    SegmentNames("");
  }

  lemma FourShaped(a: FileDescriptor, b: FileDescriptor, c: FileDescriptor, d: FileDescriptor, rest: seq<FileDescriptor>)
    requires WellShaped(a) && WellShaped(b) && WellShaped(c) && WellShaped(d)
    requires forall e :: e in rest ==> WellShaped(e)
    ensures forall e :: e in [a, b, c, d] + rest ==> WellShaped(e)
  {
  }

  lemma BundlerLayoutShapes(o: ProjectOptions, html: string, main: string, app: string, css: string, env: string)
    requires o.framework == React || o.framework == Vue
    ensures forall d :: d in BundlerFiles(o, html, main, app, css, env) ==> WellShaped(d)
  {
    SegmentNames(ComponentExt(o.language));
    SegmentNames(ScriptExt(o.language));
    SegmentNames(GetCssExtension(o.cssTool));
    SrcFileShaped(MainPath(o), main);
    SrcFileShaped(AppPath(o), app);
    SrcFileShaped(StylesheetPath(o.cssTool), css);
    SrcFileShaped(ViteEnvPath, env);
    assert Parent(["index.html"]) == [];
    var rest := if o.framework == React && o.language == TypeScript then [File(ViteEnvPath, env)] else [];
    FourShaped(File(["index.html"], html), File(MainPath(o), main), File(AppPath(o), app),
               File(StylesheetPath(o.cssTool), css), rest);
  }

  /** Every descriptor of every plan is well shaped. */
  lemma DescriptorShapes(o: ProjectOptions, c: Components)
    ensures forall d :: d in FileStructure(o, c) ==> WellShaped(d)
  {
    match o.framework {
      case NextJs => NextLayoutShapes(o, c);
      case Astro => AstroLayoutShapes(o, c);
      case React | Vue =>
        BundlerLayoutShapes(o, Html.GenerateIndexHtml(o), Entry.GenerateMainFile(o), c.appComponent(o),
                            Styles.GenerateCssFile(o), Entry.GenerateViteEnvFile(o));
    }
    SegmentNames("");
    assert WellShaped(Dir(["src"]));
  }

  // ---------------------------------------------------------------------------
  // Which paths each plan lists

  /** The paths of the descriptors, in plan order. */
  function Paths(files: seq<FileDescriptor>): (ps: seq<Path>)
    ensures |ps| == |files| && forall i :: 0 <= i < |files| ==> ps[i] == files[i].path
  {
    seq(|files|, i requires 0 <= i < |files| => files[i].path)
  }

  /** The plan's paths written out per framework, without the contents. */
  function PlannedPaths(o: ProjectOptions): seq<Path>
  {
    var ext := ComponentExt(o.language);
    [["src"]]
    + match o.framework
      case NextJs =>
        [["src", "app"], ["src", "app", "layout." + ext], ["src", "app", "page." + ext]]
        + (if o.cssTool == TailwindCss then [["src", "app", "globals.css"]] else [])
      case Astro =>
        [["src", "pages"], ["src", "pages", "index.astro"]]
        + (if o.cssTool == TailwindCss then [["src", "styles", "globals.css"], ["src", "styles"]] else [])
      case _ =>
        [["index.html"], MainPath(o), AppPath(o), StylesheetPath(o.cssTool)]
        + (if o.framework == React && o.language == TypeScript then [ViteEnvPath] else [])
  }

  lemma PathsAppend(a: seq<FileDescriptor>, b: seq<FileDescriptor>)
    ensures Paths(a + b) == Paths(a) + Paths(b)
  {
    assert forall i :: 0 <= i < |a| + |b| ==> Paths(a + b)[i] == (Paths(a) + Paths(b))[i];
  }

  lemma NextPaths(o: ProjectOptions, c: Components)
    requires o.framework == NextJs
    ensures Paths(FileStructure(o, c)) == PlannedPaths(o)
  {
    var ext := ComponentExt(o.language);
    var layout := NextLayout(o, c);
    var head, tail := layout[..3], layout[3..];
    assert layout == head + tail;
    assert Paths(head) == [["src", "app"], ["src", "app", "layout." + ext], ["src", "app", "page." + ext]];
    assert Paths(tail) == if o.cssTool == TailwindCss then [["src", "app", "globals.css"]] else [];
    PathsAppend(head, tail);
    PathsAppend([Dir(["src"])], layout);
  }

  lemma AstroPaths(o: ProjectOptions, c: Components)
    requires o.framework == Astro
    ensures Paths(FileStructure(o, c)) == PlannedPaths(o)
  {
    var layout := AstroLayout(o, c);
    var head, tail := layout[..2], layout[2..];
    assert layout == head + tail;
    assert Paths(head) == [["src", "pages"], ["src", "pages", "index.astro"]];
    assert Paths(tail) == if o.cssTool == TailwindCss then [["src", "styles", "globals.css"], ["src", "styles"]] else [];
    PathsAppend(head, tail);
    PathsAppend([Dir(["src"])], layout);
  }

  lemma BundlerFilesPaths(o: ProjectOptions, html: string, main: string, app: string, css: string, env: string)
    ensures Paths(BundlerFiles(o, html, main, app, css, env))
            == [["index.html"], MainPath(o), AppPath(o), StylesheetPath(o.cssTool)]
               + (if o.framework == React && o.language == TypeScript then [ViteEnvPath] else [])
  {
    var layout := BundlerFiles(o, html, main, app, css, env);
    var head, tail := layout[..4], layout[4..];
    assert layout == head + tail;
    assert Paths(head) == [["index.html"], MainPath(o), AppPath(o), StylesheetPath(o.cssTool)];
    assert Paths(tail) == if o.framework == React && o.language == TypeScript then [ViteEnvPath] else [];
    PathsAppend(head, tail);
  }

  lemma BundlerPaths(o: ProjectOptions, c: Components)
    requires o.framework == React || o.framework == Vue
    ensures Paths(FileStructure(o, c)) == PlannedPaths(o)
  {
    var layout := BundlerLayout(o, c);
    BundlerFilesPaths(o, Html.GenerateIndexHtml(o), Entry.GenerateMainFile(o), c.appComponent(o),
                      Styles.GenerateCssFile(o), Entry.GenerateViteEnvFile(o));
    PathsAppend([Dir(["src"])], layout);
  }

  lemma PlanPaths(o: ProjectOptions, c: Components)
    ensures Paths(FileStructure(o, c)) == PlannedPaths(o)
  {
    match o.framework {
      case NextJs => NextPaths(o, c);
      case Astro => AstroPaths(o, c);
      case React | Vue => BundlerPaths(o, c);
    }
  }

  lemma ListsPaths(files: seq<FileDescriptor>, p: Path)
    ensures Lists(files, p) <==> p in Paths(files)
  {
    if p in Paths(files) {
      var i :| 0 <= i < |files| && Paths(files)[i] == p;
      assert files[i].path == p;
    }
  }

  /** A path is listed by the plan exactly when it is one of the planned paths. */
  lemma ListedIffPlanned(o: ProjectOptions, c: Components, p: Path)
    ensures Lists(FileStructure(o, c), p) <==> p in PlannedPaths(o)
  {
    PlanPaths(o, c);
    ListsPaths(FileStructure(o, c), p);
  }

  lemma IndexHtmlInPlannedPaths(o: ProjectOptions)
    ensures ["index.html"] in PlannedPaths(o) <==> o.framework == React || o.framework == Vue
  {
    if o.framework == NextJs || o.framework == Astro {
      assert forall p :: p in PlannedPaths(o) ==> p[0] == "src";
    } else {
      assert PlannedPaths(o)[1] == ["index.html"];
    }
  }

  /** The page shell `index.html` is planned exactly for the two Vite frameworks. */
  lemma IndexHtmlPlanned(o: ProjectOptions, c: Components)
    ensures Lists(FileStructure(o, c), ["index.html"]) <==> o.framework == React || o.framework == Vue
  {
    ListedIffPlanned(o, c, ["index.html"]);
    IndexHtmlInPlannedPaths(o);
  }

  lemma ViteEnvInPlannedPaths(o: ProjectOptions)
    ensures ViteEnvPath in PlannedPaths(o) <==> o.framework == React && o.language == TypeScript
  {
    BundlerNamesDiffer(o);
  }

  /** `src/vite-env.d.ts` is planned exactly for React under TypeScript. */
  lemma ViteEnvPlanned(o: ProjectOptions, c: Components)
    ensures Lists(FileStructure(o, c), ViteEnvPath) <==> o.framework == React && o.language == TypeScript
  {
    ListedIffPlanned(o, c, ViteEnvPath);
    ViteEnvInPlannedPaths(o);
  }

  /** Next.js gets its app directory, layout and page, and `src/app/globals.css` exactly with Tailwind. */
  lemma NextAppPlanned(o: ProjectOptions, c: Components)
    ensures var ext := ComponentExt(o.language);
            o.framework == NextJs ==>
              Lists(FileStructure(o, c), ["src", "app"])
              && Lists(FileStructure(o, c), ["src", "app", "layout." + ext])
              && Lists(FileStructure(o, c), ["src", "app", "page." + ext])
    ensures Lists(FileStructure(o, c), ["src", "app", "globals.css"]) <==> o.framework == NextJs && o.cssTool == TailwindCss
  {
    var ext := ComponentExt(o.language);
    ListedIffPlanned(o, c, ["src", "app"]);
    ListedIffPlanned(o, c, ["src", "app", "layout." + ext]);
    ListedIffPlanned(o, c, ["src", "app", "page." + ext]);
    ListedIffPlanned(o, c, ["src", "app", "globals.css"]);
    NextAppInPlannedPaths(o);
  }

  lemma NextAppInPlannedPaths(o: ProjectOptions)
    ensures var ext := ComponentExt(o.language);
            o.framework == NextJs ==>
              ["src", "app"] in PlannedPaths(o)
              && ["src", "app", "layout." + ext] in PlannedPaths(o)
              && ["src", "app", "page." + ext] in PlannedPaths(o)
    ensures ["src", "app", "globals.css"] in PlannedPaths(o) <==> o.framework == NextJs && o.cssTool == TailwindCss
  {
    var ps := PlannedPaths(o);
    if o.framework != NextJs {
      assert forall i :: 0 <= i < |ps| ==> |ps[i]| != 3 || ps[i][1] != "app";
    } else {
      assert ps[1] == ["src", "app"];
    }
  }

  /** Astro gets its pages directory and index page, and `src/styles/globals.css` exactly with Tailwind. */
  lemma AstroPagesPlanned(o: ProjectOptions, c: Components)
    ensures o.framework == Astro ==>
              Lists(FileStructure(o, c), ["src", "pages"]) && Lists(FileStructure(o, c), ["src", "pages", "index.astro"])
    ensures Lists(FileStructure(o, c), ["src", "styles", "globals.css"]) <==> o.framework == Astro && o.cssTool == TailwindCss
  {
    ListedIffPlanned(o, c, ["src", "pages"]);
    ListedIffPlanned(o, c, ["src", "pages", "index.astro"]);
    ListedIffPlanned(o, c, ["src", "styles", "globals.css"]);
    AstroStylesheetInPlannedPaths(o);
  }

  lemma AstroStylesheetInPlannedPaths(o: ProjectOptions)
    ensures ["src", "styles", "globals.css"] in PlannedPaths(o) <==> o.framework == Astro && o.cssTool == TailwindCss
  {
    var ps := PlannedPaths(o);
    if o.framework != Astro {
      assert forall i :: 0 <= i < |ps| ==> |ps[i]| != 3 || ps[i][1] != "styles";
    }
  }

  /**
   * Under Astro with Tailwind the stylesheet is planned before the directory
   * holding it: `src/styles` appears only after `src/styles/globals.css`.
   */
  lemma AstroStylesDirAfterItsFile(o: ProjectOptions, c: Components)
    requires o.framework == Astro && o.cssTool == TailwindCss
    ensures var ps := Paths(FileStructure(o, c));
            exists i :: 0 <= i < |ps| && ps[i] == ["src", "styles", "globals.css"]
                        && ["src", "styles"] !in ps[..i] && ["src", "styles"] in ps[i + 1..]
  {
    PlanPaths(o, c);
    var ps := PlannedPaths(o);
    assert ps == [["src"], ["src", "pages"], ["src", "pages", "index.astro"], ["src", "styles", "globals.css"], ["src", "styles"]];
    assert ps[..3] == [["src"], ["src", "pages"], ["src", "pages", "index.astro"]];
    assert ps[4] == ["src", "styles"];
  }

  /**
   * The stylesheet import line names the stylesheet file the planner writes
   * under `src`: `./index.scss` for SCSS, `./index.css` otherwise.
   */
  lemma CssImportNamesStylesheet(t: CssTool)
    ensures Entry.GetCssImport(t) == "import './" + StylesheetPath(t)[1] + "';"
  {
  }

  lemma StylesheetNames(t: CssTool)
    ensures StylesheetPath(t) == if t == Scss then ["src", "index.scss"] else ["src", "index.css"]
  {
    var ext := GetCssExtension(t);
    var name := "index." + ext;
    var expected := if t == Scss then "index.scss" else "index.css";
    assert |name| == |expected|;
    assert forall k :: 0 <= k < |name| ==> name[k] == expected[k];
    assert name == expected;
  }

  lemma BundlerStylesheetsInPlannedPaths(o: ProjectOptions)
    ensures ["src", "index.scss"] in PlannedPaths(o) <==> (o.framework == React || o.framework == Vue) && o.cssTool == Scss
    ensures ["src", "index.css"] in PlannedPaths(o) <==> (o.framework == React || o.framework == Vue) && o.cssTool != Scss
  {
    BundlerNamesDiffer(o);
    var ps := PlannedPaths(o);
    if o.framework == NextJs || o.framework == Astro {
      assert forall i :: 0 <= i < |ps| ==> |ps[i]| != 2 || ps[i][1] in {"app", "pages", "styles", "index.astro"};
    } else {
      StylesheetNames(o.cssTool);
    }
  }

  /**
   * A React or Vue plan writes `src/index.scss` exactly under SCSS and
   * `src/index.css` otherwise, and its bootstrap module imports that file.
   */
  lemma BundlerStylesheetPlanned(o: ProjectOptions, c: Components)
    ensures Lists(FileStructure(o, c), ["src", "index.scss"]) <==> (o.framework == React || o.framework == Vue) && o.cssTool == Scss
    ensures Lists(FileStructure(o, c), ["src", "index.css"]) <==> (o.framework == React || o.framework == Vue) && o.cssTool != Scss
    ensures o.framework == React || o.framework == Vue ==>
              Contains(Entry.GenerateMainFile(o), "import './" + StylesheetPath(o.cssTool)[1] + "';")
  {
    ListedIffPlanned(o, c, ["src", "index.scss"]);
    ListedIffPlanned(o, c, ["src", "index.css"]);
    BundlerStylesheetsInPlannedPaths(o);
    CssImportNamesStylesheet(o.cssTool);
    if o.framework == React {
      Entry.ReactMainFileImports(o);
    } else if o.framework == Vue {
      Entry.VueMainFileImports(o);
    }
  }

  lemma BundlerEntriesInPlannedPaths(o: ProjectOptions)
    requires o.framework == React || o.framework == Vue
    ensures ["src", "main." + ComponentExt(o.language)] in PlannedPaths(o) <==> o.framework == React
    ensures ["src", "App.vue"] in PlannedPaths(o) <==> o.framework == Vue
    ensures o.framework == Vue ==> ["src", "main." + ScriptExt(o.language)] in PlannedPaths(o)
  {
    BundlerNamesDiffer(o);
    var jsx := "main." + ComponentExt(o.language);
    assert |jsx| == |"main." + ScriptExt(o.language)| + 1;
    assert jsx[0] == 'm';
    assert "App.vue" != "App." + ComponentExt(o.language) by {
      assert "App.vue"[4] != ("App." + ComponentExt(o.language))[4];
    }
  }

  /** The page's script source is the path `src/main.tsx` or `src/main.jsx`, rooted. */
  lemma ScriptSrcNamesMain(l: Language)
    ensures Html.ScriptSrc(l) == "/" + JoinPath(["src", "main." + ComponentExt(l)])
  {
    var ext := ComponentExt(l);
    JoinPair("src", "main." + ext);
    var rooted := "/" + ("src" + "/" + ("main." + ext));
    assert forall k :: 0 <= k < |rooted| ==> rooted[k] == Html.ScriptSrc(l)[k];
  }

  /**
   * The page shell loads `/src/main.tsx` or `/src/main.jsx` whatever the
   * framework; the plan holds that file under React, while under Vue it writes
   * `src/main.ts` or `src/main.js` and the page's script names a file that is
   * not planned.  The root component is `src/App.vue` exactly under Vue.
   */
  lemma BundlerEntriesPlanned(o: ProjectOptions, c: Components)
    requires o.framework == React || o.framework == Vue
    ensures var script := ["src", "main." + ComponentExt(o.language)];
            Html.ScriptSrc(o.language) == "/" + JoinPath(script)
            && (Lists(FileStructure(o, c), script) <==> o.framework == React)
    ensures Lists(FileStructure(o, c), ["src", "App.vue"]) <==> o.framework == Vue
  {
    var script := ["src", "main." + ComponentExt(o.language)];
    ListedIffPlanned(o, c, script);
    ListedIffPlanned(o, c, ["src", "App.vue"]);
    BundlerEntriesInPlannedPaths(o);
    ScriptSrcNamesMain(o.language);
  }
}
