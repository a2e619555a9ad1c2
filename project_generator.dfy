/**
 * The project materializer: refuses an existing target, creates the target
 * directory, writes `package.json` and the optional configuration files,
 * lays out the template files, writes `.gitignore` and `README.md`, and
 * finally initialises a git repository, whose failure is only a warning.
 */
module ProjectGenerator {
  import opened Common
  import opened Options
  import opened ConfigGenerators
  import opened Structure
  import opened FileSystem

  // ---------------------------------------------------------------------------
  // .gitignore

  const GitignoreHead :=
    "# Dependencies\n" + "node_modules/\n" + ".pnp\n.pnp.js\n\n"
    + "# Testing\n" + "coverage/\n\n"
    + "# Production\n"
  const GitignoreTail :=
    "build/\n\n" + "# Misc\n" + ".DS_Store\n" + "*.pem\n\n"
    + "# Debug\n" + "npm-debug.log*\n" + "yarn-debug.log*\n" + "yarn-error.log*\n"
    + "pnpm-debug.log*\n" + "lerna-debug.log*\n\n"
    + "# Local env files\n" + ".env\n" + ".env*.local\n\n"
    + "# Vercel\n" + ".vercel\n\n"
    + "# Typescript\n" + "*.tsbuildinfo\n" + "next-env.d.ts\n"
  const NextSection := "\n# Next.js\n" + "out/\n"
  const AstroSection := "\n# Astro\n" + ".astro/\n"

  /** The build output directory listed under "# Production". */
  function BuildOutputDir(f: Framework): (dir: string)
    ensures dir == ".next/" <==> f == NextJs
    ensures dir == ".astro/" <==> f == Astro
    ensures f == React || f == Vue ==> dir == "dist/"
  {
    if f == NextJs then ".next/" else if f == Astro then ".astro/" else "dist/"
  }

  /** The text every framework shares, with its own output directory on the line under "# Production". */
  function GitignoreBase(f: Framework): string
  {
    GitignoreHead + (BuildOutputDir(f) + "\n") + GitignoreTail
  }

  /** `generateGitignore`: the common text, then a section of its own for Next.js and for Astro. */
  function Gitignore(f: Framework): (content: string)
    ensures GitignoreBase(f) <= content
    ensures f == NextJs ==> content == GitignoreBase(f) + NextSection
    ensures f == Astro ==> content == GitignoreBase(f) + AstroSection
    ensures f == React || f == Vue ==> content == GitignoreBase(f)
  {
    GitignoreBase(f) + (if f == NextJs then NextSection else "") + (if f == Astro then AstroSection else "")
  }

  /** The Astro output directory is listed twice: once under "# Production", once in the Astro section. */
  lemma AstroOutputListedTwice()
    ensures var content := Gitignore(Astro);
            && OccursAt(content, ".astro/\n", |GitignoreHead|)
            && OccursAt(content, ".astro/\n", |content| - 8)
            && |GitignoreHead| < |content| - 8
  {
    var line := ".astro/\n";
    var content := Gitignore(Astro);
    var base := GitignoreBase(Astro);
    OccursInfix(GitignoreHead, line, GitignoreTail);
    OccursExtend(base, line, |GitignoreHead|, "");
    OccursExtend(base + "", line, |GitignoreHead|, AstroSection);
    OccursRight("\n# Astro\n", line);
    OccursPrepend(base + "", AstroSection, line, 9);
  }

  // ---------------------------------------------------------------------------
  // README.md

  /** The command that runs a package script: `npm run` under npm, the manager's own name otherwise. */
  function RunCommand(pm: PackageManager): (cmd: string)
    ensures cmd == "npm run" <==> pm == Npm
    ensures pm != Npm ==> cmd == PackageManagerName(pm)
  {
    if pm == Npm then "npm run" else PackageManagerName(pm)
  }

  const EslintLine := "- **ESLint**: \U{2705}"
  const PrettierLine := "- **Prettier**: \U{2705}"

  /** A fenced shell block holding one command. */
  function CommandBlock(cmd: string): string
  {
    "```bash\n" + cmd + "\n```\n\n"
  }

  function ReadmeTitle(o: ProjectOptions): string
  {
    "# " + o.projectName + "\n"
  }

  function ReadmeIntro(o: ProjectOptions): string
  {
    ReadmeTitle(o) + "\n"
    + "A project built with " + FrameworkName(o.framework) + " + " + LanguageName(o.language)
    + " + " + CssToolName(o.cssTool) + ".\n\n"
    + "## Getting Started\n\n"
  }

  function ReadmeCommands(o: ProjectOptions): string
  {
    "### Install Dependencies\n\n" + CommandBlock(PackageManagerName(o.packageManager) + " install")
    + "### Development\n\n" + CommandBlock(RunCommand(o.packageManager) + " dev")
    + "### Build\n\n" + CommandBlock(RunCommand(o.packageManager) + " build")
  }

  function TechStack(o: ProjectOptions): string
  {
    "## Tech Stack\n\n"
    + "- **Framework**: " + FrameworkName(o.framework) + "\n"
    + "- **Language**: " + LanguageName(o.language) + "\n"
    + "- **CSS Tool**: " + CssToolName(o.cssTool) + "\n"
    + "- **Package Manager**: " + PackageManagerName(o.packageManager) + "\n"
  }

  /** The two optional lines; a line left out still leaves its line break. */
  function ToolLines(o: ProjectOptions): string
  {
    (if o.eslint then EslintLine else "") + "\n" + (if o.prettier then PrettierLine else "") + "\n"
  }

  /** `generateReadme`: the introduction, the commands, the stack, and last the optional tool lines. */
  function Readme(o: ProjectOptions): (text: string)
    ensures ReadmeIntro(o) <= text
    ensures |ToolLines(o)| <= |text| && text[|text| - |ToolLines(o)|..] == ToolLines(o)
  {
    var head := ReadmeIntro(o) + ReadmeCommands(o) + TechStack(o);
    assert (head + ToolLines(o))[|head|..] == ToolLines(o);
    assert ReadmeIntro(o) <= ReadmeIntro(o) + ReadmeCommands(o) <= head <= head + ToolLines(o);
    head + ToolLines(o)
  }

  /** The README opens with the project name as its title. */
  lemma ReadmeStartsWithTitle(o: ProjectOptions)
    ensures ReadmeTitle(o) <= Readme(o)
    ensures ReadmeTitle(o)[2..|ReadmeTitle(o)| - 1] == o.projectName
  {
    var intro := ReadmeIntro(o);
    var rest := "A project built with " + FrameworkName(o.framework) + " + " + LanguageName(o.language)
      + " + " + CssToolName(o.cssTool) + ".\n\n";
    PrefixOfAppend(ReadmeTitle(o), ReadmeTitle(o), "\n");
    PrefixOfAppend(ReadmeTitle(o), ReadmeTitle(o) + "\n", "A project built with ");
    PrefixOfAppend(ReadmeTitle(o), ReadmeTitle(o) + "\n" + "A project built with ", FrameworkName(o.framework));
    PrefixOfAppend(ReadmeTitle(o), ReadmeTitle(o) + "\n" + "A project built with " + FrameworkName(o.framework), " + ");
    PrefixOfAppend(ReadmeTitle(o), ReadmeTitle(o) + "\n" + "A project built with " + FrameworkName(o.framework) + " + ",
                   LanguageName(o.language));
    PrefixOfAppend(ReadmeTitle(o), ReadmeTitle(o) + "\n" + "A project built with " + FrameworkName(o.framework) + " + "
                   + LanguageName(o.language), " + ");
    PrefixOfAppend(ReadmeTitle(o), ReadmeTitle(o) + "\n" + "A project built with " + FrameworkName(o.framework) + " + "
                   + LanguageName(o.language) + " + ", CssToolName(o.cssTool));
    PrefixOfAppend(ReadmeTitle(o), ReadmeTitle(o) + "\n" + "A project built with " + FrameworkName(o.framework) + " + "
                   + LanguageName(o.language) + " + " + CssToolName(o.cssTool), ".\n\n");
    PrefixOfAppend(ReadmeTitle(o), ReadmeTitle(o) + "\n" + "A project built with " + FrameworkName(o.framework) + " + "
                   + LanguageName(o.language) + " + " + CssToolName(o.cssTool) + ".\n\n", "## Getting Started\n\n");
    PrefixOfAppend(ReadmeTitle(o), intro, ReadmeCommands(o));
    PrefixOfAppend(ReadmeTitle(o), intro + ReadmeCommands(o), TechStack(o));
    PrefixOfAppend(ReadmeTitle(o), intro + ReadmeCommands(o) + TechStack(o), ToolLines(o));
  }

  /** The install, development and build commands appear, each in a fenced block of its own. */
  lemma ReadmeShowsCommands(o: ProjectOptions)
    ensures Contains(Readme(o), CommandBlock(PackageManagerName(o.packageManager) + " install"))
    ensures Contains(Readme(o), CommandBlock(RunCommand(o.packageManager) + " dev"))
    ensures Contains(Readme(o), CommandBlock(RunCommand(o.packageManager) + " build"))
  {
    var intro, tech, tools := ReadmeIntro(o), TechStack(o), ToolLines(o);
    var install := CommandBlock(PackageManagerName(o.packageManager) + " install");
    var dev := CommandBlock(RunCommand(o.packageManager) + " dev");
    var build := CommandBlock(RunCommand(o.packageManager) + " build");
    var a, b, c := "### Install Dependencies\n\n", "### Development\n\n", "### Build\n\n";
    var cmds := ReadmeCommands(o);
    ContainsRight(a, install);
    ContainsExtend(a + install, install, b);
    ContainsExtend(a + install + b, install, dev);
    ContainsExtend(a + install + b + dev, install, c);
    ContainsExtend(a + install + b + dev + c, install, build);
    ContainsRight(a + install + b, dev);
    ContainsExtend(a + install + b + dev, dev, c);
    ContainsExtend(a + install + b + dev + c, dev, build);
    ContainsRight(a + install + b + dev + c, build);
    assert cmds == a + install + b + dev + c + build;
    forall x | x in {install, dev, build} ensures Contains(Readme(o), x) {
      ContainsPrepend(intro, cmds, x);
      ContainsExtend(intro + cmds, x, tech);
      ContainsExtend(intro + cmds + tech, x, tools);
    }
  }

  lemma LineLetters()
    ensures EslintLine[4] == 'E' && 'E' !in PrettierLine
    ensures PrettierLine[4] == 'P' && 'P' !in EslintLine
  {
  }

  /**
   * Among the optional lines that end the README, the ESLint line appears
   * exactly when ESLint was chosen, the Prettier line exactly when Prettier was.
   */
  lemma {:induction false} ReadmeToolLines(o: ProjectOptions)
    ensures Contains(ToolLines(o), EslintLine) <==> o.eslint
    ensures Contains(ToolLines(o), PrettierLine) <==> o.prettier
  {
    var lines := ToolLines(o);
    var e := if o.eslint then EslintLine else "";
    var p := if o.prettier then PrettierLine else "";
    LineLetters();
    if o.eslint {
      assert OccursAt(EslintLine, EslintLine, 0);
      ContainsExtend(EslintLine, EslintLine, "\n");
      ContainsExtend(EslintLine + "\n", EslintLine, p);
      ContainsExtend(EslintLine + "\n" + p, EslintLine, "\n");
    } else {
      assert 'E' !in lines by {
        assert lines == "\n" + p + "\n";
      }
      if Contains(lines, EslintLine) {
        ContainsElement(lines, EslintLine, 'E');
      }
    }
    if o.prettier {
      ContainsRight(e + "\n", PrettierLine);
      ContainsExtend(e + "\n" + PrettierLine, PrettierLine, "\n");
    } else {
      assert 'P' !in lines by {
        assert lines == e + "\n" + "\n";
      }
      if Contains(lines, PrettierLine) {
        ContainsElement(lines, PrettierLine, 'P');
      }
    }
  }

  // ---------------------------------------------------------------------------
  // The operations a project takes

  /**
   * What a file holds: text, or one of the JSON documents, kept as the record
   * that is serialised into it.
   */
  datatype Content =
    | Text(text: string)
    | PackageJson(manifest: Manifest)
    | TsConfigJson(tsconfig: TsConfig)
    | EslintJson(eslintrc: EslintConfig)
    | PrettierJson(prettierrc: PrettierConfig)

  /** The configuration files written into the project root, in order, after its directory is made. */
  function ConfigWrites(o: ProjectOptions, target: Path): seq<Op<Content>>
  {
    ManifestWrites(o, target) + CssWrites(target, CssConfigFiles(o)) + ToolWrites(o, target)
  }

  /** `package.json`, then `tsconfig.json` under TypeScript, then the framework's own configuration. */
  function ManifestWrites(o: ProjectOptions, target: Path): seq<Op<Content>>
  {
    [Write(target + ["package.json"], PackageJson(PackageManifest(o)))]
    + TsConfigWrites(o, target)
    + FrameworkWrites(o, target)
  }

  function TsConfigWrites(o: ProjectOptions, target: Path): seq<Op<Content>>
  {
    if o.language == TypeScript && GenerateTsConfig(o).Some?
    then [Write(target + ["tsconfig.json"], TsConfigJson(GenerateTsConfig(o).value))] else []
  }

  function FrameworkWrites(o: ProjectOptions, target: Path): seq<Op<Content>>
  {
    if GenerateFrameworkConfig(o).Some?
    then [Write(target + [GenerateFrameworkConfig(o).value.filename], Text(GenerateFrameworkConfig(o).value.content))]
    else []
  }

  /** The ESLint and Prettier configurations, each when chosen. */
  function ToolWrites(o: ProjectOptions, target: Path): seq<Op<Content>>
  {
    (if o.eslint && EslintFile(o).Some?
     then [Write(target + [EslintFile(o).value.filename], EslintJson(EslintFile(o).value.config))] else [])
    + (if o.prettier && GeneratePrettierConfig(o).Some?
       then [Write(target + [GeneratePrettierConfig(o).value.filename], PrettierJson(GeneratePrettierConfig(o).value.config))]
       else [])
  }

  function CssWrites(target: Path, configs: seq<ConfigFile>): (ops: seq<Op<Content>>)
    ensures |ops| == |configs|
    ensures forall i :: 0 <= i < |configs| ==>
              ops[i] == Write(target + [configs[i].filename], Text(configs[i].content))
  {
    seq(|configs|, i requires 0 <= i < |configs| => Write(target + [configs[i].filename], Text(configs[i].content)))
  }

  /** One planned entry: a directory is made; a file gets its directory made and is then written. */
  function DescriptorOps(target: Path, d: FileDescriptor): seq<Op<Content>>
  {
    if d.isDirectory then [Mkdirs(target + d.path)]
    else [Mkdirs(Parent(target + d.path)), Write(target + d.path, Text(d.content))]
  }

  /** The planned entries, in order. */
  function TemplateOps(target: Path, files: seq<FileDescriptor>): seq<Op<Content>>
    decreases |files|
  {
    if files == [] then []
    else TemplateOps(target, files[..|files| - 1]) + DescriptorOps(target, files[|files| - 1])
  }

  function FinalWrites(o: ProjectOptions, target: Path): seq<Op<Content>>
  {
    [Write(target + [".gitignore"], Text(Gitignore(o.framework))),
     Write(target + ["README.md"], Text(Readme(o)))]
  }

  /** Everything a new project takes, in the order it is done. */
  function ProjectPlan(o: ProjectOptions, c: Components, target: Path): seq<Op<Content>>
  {
    [Mkdirs(target)] + ConfigWrites(o, target) + TemplateOps(target, FileStructure(o, c)) + FinalWrites(o, target)
  }

  /** Whether the closing `git init` worked; when it did not, a warning was shown and the project still stands. */
  datatype Created = Created(gitInitialised: bool)

  /** The filesystem object has performed the operations `done` from `start`, and `err` is how that run ended. */
  ghost predicate Performed(fs: FileSystem<Content>, start: FsState<Content>, startLog: seq<Op<Content>>,
                            done: seq<Op<Content>>, err: Option<FsError>)
    reads fs
  {
    var r := Run(start, done);
    fs.State() == r.state && err == r.error && fs.log == startLog + r.applied
  }

  /** Performs `op` unless an earlier operation failed, as an `await` after a thrown one never runs. */
  method Perform(fs: FileSystem<Content>, ghost start: FsState<Content>, ghost startLog: seq<Op<Content>>,
                 ghost done: seq<Op<Content>>, err: Option<FsError>, op: Op<Content>)
    returns (err': Option<FsError>)
    requires Performed(fs, start, startLog, done, err)
    modifies fs
    ensures Performed(fs, start, startLog, done + [op], err')
  {
    RunSnoc(start, done, op);
    if err.Some? {
      return err;
    }
    match op {
      case Mkdirs(p) => err' := fs.EnsureDir(p);
      case Write(p, content) => err' := fs.WriteFile(p, content);
    }
  }

  method WriteManifests(fs: FileSystem<Content>, o: ProjectOptions, target: Path,
                        ghost start: FsState<Content>, ghost startLog: seq<Op<Content>>,
                        ghost done: seq<Op<Content>>, err: Option<FsError>)
    returns (err': Option<FsError>)
    requires Performed(fs, start, startLog, done, err)
    modifies fs
    ensures Performed(fs, start, startLog, done + ManifestWrites(o, target), err')
  {
    var manifest := GeneratePackageJson(o);
    var op := Write(target + ["package.json"], PackageJson(manifest));
    err' := Perform(fs, start, startLog, done, err, op);
    ghost var now := done + [op];
    err' := WriteTsConfig(fs, o, target, start, startLog, now, err');
    now := now + TsConfigWrites(o, target);
    err' := WriteFrameworkConfig(fs, o, target, start, startLog, now, err');
    assert done + ManifestWrites(o, target) == now + FrameworkWrites(o, target);
  }

  method WriteTsConfig(fs: FileSystem<Content>, o: ProjectOptions, target: Path,
                       ghost start: FsState<Content>, ghost startLog: seq<Op<Content>>,
                       ghost done: seq<Op<Content>>, err: Option<FsError>)
    returns (err': Option<FsError>)
    requires Performed(fs, start, startLog, done, err)
    modifies fs
    ensures Performed(fs, start, startLog, done + TsConfigWrites(o, target), err')
  {
    err' := err;
    assert done + [] == done;
    if o.language == TypeScript {
      var tsConfig := GenerateTsConfig(o);
      if tsConfig.Some? {
        err' := Perform(fs, start, startLog, done, err', Write(target + ["tsconfig.json"], TsConfigJson(tsConfig.value)));
      }
    }
  }

  method WriteFrameworkConfig(fs: FileSystem<Content>, o: ProjectOptions, target: Path,
                              ghost start: FsState<Content>, ghost startLog: seq<Op<Content>>,
                              ghost done: seq<Op<Content>>, err: Option<FsError>)
    returns (err': Option<FsError>)
    requires Performed(fs, start, startLog, done, err)
    modifies fs
    ensures Performed(fs, start, startLog, done + FrameworkWrites(o, target), err')
  {
    err' := err;
    assert done + [] == done;
    var frameworkConfig := GenerateFrameworkConfig(o);
    if frameworkConfig.Some? {
      var op := Write(target + [frameworkConfig.value.filename], Text(frameworkConfig.value.content));
      err' := Perform(fs, start, startLog, done, err', op);
    }
  }

  method WriteCssConfigs(fs: FileSystem<Content>, o: ProjectOptions, target: Path,
                         ghost start: FsState<Content>, ghost startLog: seq<Op<Content>>,
                         ghost done: seq<Op<Content>>, err: Option<FsError>)
    returns (err': Option<FsError>)
    requires Performed(fs, start, startLog, done, err)
    modifies fs
    ensures Performed(fs, start, startLog, done + CssWrites(target, CssConfigFiles(o)), err')
  {
    var cssConfigs := GenerateCssConfig(o);
    err' := err;
    assert done + CssWrites(target, cssConfigs[..0]) == done;
    for i := 0 to |cssConfigs|
      invariant Performed(fs, start, startLog, done + CssWrites(target, cssConfigs[..i]), err')
    {
      var op := Write(target + [cssConfigs[i].filename], Text(cssConfigs[i].content));
      err' := Perform(fs, start, startLog, done + CssWrites(target, cssConfigs[..i]), err', op);
      assert done + CssWrites(target, cssConfigs[..i + 1]) == done + CssWrites(target, cssConfigs[..i]) + [op];
    }
    assert cssConfigs[..|cssConfigs|] == cssConfigs;
  }

  method WriteToolConfigs(fs: FileSystem<Content>, o: ProjectOptions, target: Path,
                          ghost start: FsState<Content>, ghost startLog: seq<Op<Content>>,
                          ghost done: seq<Op<Content>>, err: Option<FsError>)
    returns (err': Option<FsError>)
    requires Performed(fs, start, startLog, done, err)
    modifies fs
    ensures Performed(fs, start, startLog, done + ToolWrites(o, target), err')
  {
    err' := err;
    ghost var now := done;
    if o.eslint {
      var eslintConfig := GenerateEslintConfig(o);
      if eslintConfig.Some? {
        var op := Write(target + [eslintConfig.value.filename], EslintJson(eslintConfig.value.config));
        err' := Perform(fs, start, startLog, now, err', op);
        now := now + [op];
      }
    }
    if o.prettier {
      var prettierConfig := GeneratePrettierConfig(o);
      if prettierConfig.Some? {
        var op := Write(target + [prettierConfig.value.filename], PrettierJson(prettierConfig.value.config));
        err' := Perform(fs, start, startLog, now, err', op);
        now := now + [op];
      }
    }
    assert now == done + ToolWrites(o, target);
  }

  /** One entry of the file structure: a directory is made; a file gets its directory, then its content. */
  method WriteDescriptor(fs: FileSystem<Content>, target: Path, file: FileDescriptor,
                         ghost start: FsState<Content>, ghost startLog: seq<Op<Content>>,
                         ghost done: seq<Op<Content>>, err: Option<FsError>)
    returns (err': Option<FsError>)
    requires Performed(fs, start, startLog, done, err)
    modifies fs
    ensures Performed(fs, start, startLog, done + DescriptorOps(target, file), err')
  {
    if file.isDirectory {
      err' := Perform(fs, start, startLog, done, err, Mkdirs(target + file.path));
    } else {
      var filePath := target + file.path;
      err' := Perform(fs, start, startLog, done, err, Mkdirs(Parent(filePath)));
      err' := Perform(fs, start, startLog, done + [Mkdirs(Parent(filePath))], err', Write(filePath, Text(file.content)));
      assert done + [Mkdirs(Parent(filePath))] + [Write(filePath, Text(file.content))] == done + DescriptorOps(target, file);
    }
  }

  method WriteTemplates(fs: FileSystem<Content>, o: ProjectOptions, c: Components, target: Path,
                        ghost start: FsState<Content>, ghost startLog: seq<Op<Content>>,
                        ghost done: seq<Op<Content>>, err: Option<FsError>)
    returns (err': Option<FsError>)
    requires Performed(fs, start, startLog, done, err)
    modifies fs
    ensures Performed(fs, start, startLog, done + TemplateOps(target, FileStructure(o, c)), err')
  {
    var fileStructure := GetFileStructure(o, c);
    err' := err;
    assert fileStructure[..0] == [];
    assert done + TemplateOps(target, fileStructure[..0]) == done;
    for i := 0 to |fileStructure|
      invariant Performed(fs, start, startLog, done + TemplateOps(target, fileStructure[..i]), err')
    {
      assert fileStructure[..i + 1][..i] == fileStructure[..i];
      err' := WriteDescriptor(fs, target, fileStructure[i], start, startLog,
                              done + TemplateOps(target, fileStructure[..i]), err');
      assert done + TemplateOps(target, fileStructure[..i + 1])
          == done + TemplateOps(target, fileStructure[..i]) + DescriptorOps(target, fileStructure[i]);
    }
    assert fileStructure[..|fileStructure|] == fileStructure;
  }

  lemma PlanParts(mkdir: seq<Op<Content>>, manifests: seq<Op<Content>>, css: seq<Op<Content>>,
                  tools: seq<Op<Content>>, templates: seq<Op<Content>>, final: seq<Op<Content>>)
    requires |final| == 2
    ensures mkdir + manifests + css + tools + templates + [final[0]] + [final[1]]
            == mkdir + (manifests + css + tools) + templates + final
  {
    assert final == [final[0]] + [final[1]];
  }

  /**
   * `generateProject`: an existing target is refused and nothing changes;
   * otherwise the plan is carried out until its first failure, which is
   * reported, and with no failure the project is created whether or not git
   * could be initialised.
   */
  method GenerateProject(fs: FileSystem<Content>, o: ProjectOptions, c: Components, target: Path, gitSucceeds: bool)
    returns (r: Result<Created, FsError>)
    modifies fs
    ensures old(Exists(fs.State(), target)) ==>
              r == Err(AlreadyExists(target)) && fs.State() == old(fs.State()) && fs.log == old(fs.log)
    ensures !old(Exists(fs.State(), target)) ==>
              var run := Run(old(fs.State()), ProjectPlan(o, c, target));
              && fs.State() == run.state
              && fs.log == old(fs.log) + run.applied
              && r == (if run.error.Some? then Err(run.error.value) else Ok(Created(gitSucceeds)))
  {
    var taken := fs.PathExists(target);
    if taken {
      return Err(AlreadyExists(target));
    }
    ghost var start, startLog := fs.State(), fs.log;
    ghost var done: seq<Op<Content>> := [];
    var err: Option<FsError> := None;

    err := Perform(fs, start, startLog, done, err, Mkdirs(target));
    done := [Mkdirs(target)];
    err := WriteManifests(fs, o, target, start, startLog, done, err);
    done := done + ManifestWrites(o, target);
    err := WriteCssConfigs(fs, o, target, start, startLog, done, err);
    done := done + CssWrites(target, CssConfigFiles(o));
    err := WriteToolConfigs(fs, o, target, start, startLog, done, err);
    done := done + ToolWrites(o, target);
    err := WriteTemplates(fs, o, c, target, start, startLog, done, err);
    done := done + TemplateOps(target, FileStructure(o, c));

    var op := Write(target + [".gitignore"], Text(Gitignore(o.framework)));
    err := Perform(fs, start, startLog, done, err, op);
    done := done + [op];
    op := Write(target + ["README.md"], Text(Readme(o)));
    err := Perform(fs, start, startLog, done, err, op);
    done := done + [op];
    PlanParts([Mkdirs(target)], ManifestWrites(o, target), CssWrites(target, CssConfigFiles(o)), ToolWrites(o, target),
              TemplateOps(target, FileStructure(o, c)), FinalWrites(o, target));

    if err.Some? {
      return Err(err.value);
    }
    return Ok(Created(gitSucceeds));
  }

  // ---------------------------------------------------------------------------
  // A fresh target always succeeds

  /** Every operation writes a dotted file directly into `target`. */
  ghost predicate AllTopLevel(target: Path, ops: seq<Op<Content>>)
  {
    forall i :: 0 <= i < |ops| ==> TopLevelWrite(target, ops[i])
  }

  lemma AllTopLevelAppend(target: Path, a: seq<Op<Content>>, b: seq<Op<Content>>)
    requires AllTopLevel(target, a) && AllTopLevel(target, b)
    ensures AllTopLevel(target, a + b)
  {
    forall i | 0 <= i < |a + b| ensures TopLevelWrite(target, (a + b)[i]) {
      if i >= |a| {
        assert (a + b)[i] == b[i - |a|];
      }
    }
  }

  lemma TopLevelSingle(target: Path, name: string, content: Content)
    requires '.' in name
    ensures AllTopLevel(target, [Write(target + [name], content)])
  {
    assert (target + [name])[..|target|] == target;
    assert (target + [name])[|target|] == name;
  }

  /** The name of the framework's configuration file, one per framework and language. */
  function FrameworkFileName(o: ProjectOptions): string
  {
    match o.framework
    case NextJs => "next.config." + ScriptExt(o.language)
    case Astro => "astro.config.mjs"
    case _ => "vite.config." + ScriptExt(o.language)
  }

  /** The framework's file name is dotted and shares neither length nor first letter with the other root names. */
  lemma FrameworkFileNameShape(o: ProjectOptions)
    ensures var name := FrameworkFileName(o);
            && '.' in name
            && (|name| == 14 || |name| == 16)
            && name[0] != '.' && name[0] != 'i' && name[0] != 'R'
  {
    var name := FrameworkFileName(o);
    assert name[4] == '.' || name[5] == '.';
  }

  /** `generateFrameworkConfig` names its file as `FrameworkFileName` does. */
  lemma FrameworkConfigName(o: ProjectOptions)
    ensures var name := GenerateFrameworkConfig(o).value.filename;
            && name == FrameworkFileName(o)
            && '.' in name
            && (|name| == 14 || |name| == 16)
            && name[0] != '.' && name[0] != 'i' && name[0] != 'R'
  {
    FrameworkFileNameShape(o);
  }

  lemma ManifestWritesTopLevel(o: ProjectOptions, target: Path)
    ensures AllTopLevel(target, ManifestWrites(o, target))
  {
    var pkg := [Write(target + ["package.json"], PackageJson(PackageManifest(o)))];
    TopLevelSingle(target, "package.json", PackageJson(PackageManifest(o)));
    if o.language == TypeScript {
      TopLevelSingle(target, "tsconfig.json", TsConfigJson(GenerateTsConfig(o).value));
    }
    FrameworkConfigName(o);
    var fc := GenerateFrameworkConfig(o).value;
    TopLevelSingle(target, fc.filename, Text(fc.content));
    AllTopLevelAppend(target, pkg, TsConfigWrites(o, target));
    AllTopLevelAppend(target, pkg + TsConfigWrites(o, target), FrameworkWrites(o, target));
  }

  lemma CssWritesTopLevel(o: ProjectOptions, target: Path)
    ensures AllTopLevel(target, CssWrites(target, CssConfigFiles(o)))
  {
    var css := CssWrites(target, CssConfigFiles(o));
    if o.cssTool == TailwindCss {
      var files := CssConfigFiles(o);
      TopLevelSingle(target, "tailwind.config.js", Text(files[0].content));
      TopLevelSingle(target, "postcss.config.js", Text(files[1].content));
      assert css == [css[0]] + [css[1]];
      AllTopLevelAppend(target, [css[0]], [css[1]]);
    }
  }

  lemma ToolWritesTopLevel(o: ProjectOptions, target: Path)
    ensures AllTopLevel(target, ToolWrites(o, target))
  {
    var lint := if o.eslint && EslintFile(o).Some?
      then [Write(target + [EslintFile(o).value.filename], EslintJson(EslintFile(o).value.config))] else [];
    var format := if o.prettier && GeneratePrettierConfig(o).Some?
      then [Write(target + [GeneratePrettierConfig(o).value.filename], PrettierJson(GeneratePrettierConfig(o).value.config))]
      else [];
    if o.eslint {
      TopLevelSingle(target, ".eslintrc.json", EslintJson(EslintFile(o).value.config));
    }
    if o.prettier {
      TopLevelSingle(target, ".prettierrc", PrettierJson(GeneratePrettierConfig(o).value.config));
    }
    AllTopLevelAppend(target, lint, format);
  }

  lemma ConfigWritesTopLevel(o: ProjectOptions, target: Path)
    ensures AllTopLevel(target, ConfigWrites(o, target))
  {
    ManifestWritesTopLevel(o, target);
    CssWritesTopLevel(o, target);
    ToolWritesTopLevel(o, target);
    AllTopLevelAppend(target, ManifestWrites(o, target), CssWrites(target, CssConfigFiles(o)));
    AllTopLevelAppend(target, ManifestWrites(o, target) + CssWrites(target, CssConfigFiles(o)), ToolWrites(o, target));
  }

  lemma FinalWritesTopLevel(o: ProjectOptions, target: Path)
    ensures AllTopLevel(target, FinalWrites(o, target))
  {
    TopLevelSingle(target, ".gitignore", Text(Gitignore(o.framework)));
    TopLevelSingle(target, "README.md", Text(Readme(o)));
    AllTopLevelAppend(target, [FinalWrites(o, target)[0]], [FinalWrites(o, target)[1]]);
    assert FinalWrites(o, target) == [FinalWrites(o, target)[0]] + [FinalWrites(o, target)[1]];
  }

  /** One well-shaped entry is laid out below a tidy `target` without failure. */
  lemma DescriptorRuns(s: FsState<Content>, target: Path, d: FileDescriptor)
    requires Tidy(s, target) && WellShaped(d)
    ensures Run(s, DescriptorOps(target, d)).error.None?
    ensures Tidy(Run(s, DescriptorOps(target, d)).state, target)
  {
    if d.isDirectory {
      MkdirsTidy(s, target, d.path);
      RunSingle(s, Mkdirs(target + d.path));
    } else {
      var make := Mkdirs(Parent(target + d.path));
      var write := Write(target + d.path, Text(d.content));
      assert Parent(target + d.path) == target + Parent(d.path);
      MkdirsTidy(s, target, Parent(d.path));
      var mid := Step(s, make).value;
      WriteTidy(mid, target, d.path, Text(d.content));
      RunSingle(s, make);
      RunSingle(mid, write);
      RunAppend(s, [make], [write]);
    }
  }

  /** Well-shaped entries are laid out below a tidy `target` without failure. */
  lemma {:induction false} TemplatesRun(s: FsState<Content>, target: Path, files: seq<FileDescriptor>)
    requires Tidy(s, target)
    requires forall d :: d in files ==> WellShaped(d)
    ensures Run(s, TemplateOps(target, files)).error.None?
    ensures Tidy(Run(s, TemplateOps(target, files)).state, target)
    decreases |files|
  {
    if files != [] {
      var init, last := files[..|files| - 1], files[|files| - 1];
      assert forall d :: d in init ==> d in files;
      TemplatesRun(s, target, init);
      RunAppend(s, TemplateOps(target, init), DescriptorOps(target, last));
      DescriptorRuns(Run(s, TemplateOps(target, init)).state, target, last);
    }
  }

  /** The conditions under which `generateProject` reaches git: nothing at the target, no file in its way. */
  ghost predicate FreshTarget(s: FsState<Content>, target: Path)
  {
    Valid(s) && !Exists(s, target) && !FileOnPath(s, target)
  }

  /** A plan of this shape, started on a fresh target, runs to the end and leaves a tidy state. */
  lemma FreshRun(s: FsState<Content>, target: Path, b: seq<Op<Content>>, files: seq<FileDescriptor>, f: seq<Op<Content>>)
    requires FreshTarget(s, target) && AllTopLevel(target, b) && AllTopLevel(target, f)
    requires forall d :: d in files ==> WellShaped(d)
    ensures var plan := [Mkdirs(target)] + b + TemplateOps(target, files) + f;
            Run(s, plan).error.None? && Tidy(Run(s, plan).state, target)
  {
    var a, t := [Mkdirs(target)], TemplateOps(target, files);
    RunAppend(s, a + b + t, f);
    RunAppend(s, a + b, t);
    RunAppend(s, a, b);
    StartTidy(s, target);
    RunSingle(s, Mkdirs(target));
    var s1 := Step(s, Mkdirs(target)).value;
    TopLevelWritesRun(s1, target, b);
    var s2 := Run(s1, b).state;
    TemplatesRun(s2, target, files);
    TopLevelWritesRun(Run(s2, t).state, target, f);
  }

  /**
   * In a well-formed filesystem where the target does not exist and no file
   * stands on its path, the whole plan succeeds, whatever the options.
   */
  lemma PlanSucceeds(s: FsState<Content>, o: ProjectOptions, c: Components, target: Path)
    requires FreshTarget(s, target)
    ensures Run(s, ProjectPlan(o, c, target)).error.None?
    ensures Tidy(Run(s, ProjectPlan(o, c, target)).state, target)
  {
    ConfigWritesTopLevel(o, target);
    FinalWritesTopLevel(o, target);
    DescriptorShapes(o, c);
    FreshRun(s, target, ConfigWrites(o, target), FileStructure(o, c), FinalWrites(o, target));
  }

  // ---------------------------------------------------------------------------
  // What a successful run leaves behind

  lemma WrittenSingle(op: Op<Content>)
    ensures Written([op]) == if op.Write? then {op.path} else {}
    ensures Made([op]) == if op.Mkdirs? then {op.path} else {}
  {
    WrittenCons(op, []);
    assert [op] + [] == [op];
  }

  lemma WrittenPair(a: Op<Content>, b: Op<Content>)
    ensures Written([a, b]) == Written([a]) + Written([b])
    ensures Made([a, b]) == Made([a]) + Made([b])
  {
    WrittenAppend([a], [b]);
    assert [a] + [b] == [a, b];
  }

  /** The template entries write exactly their files and make every directory they list. */
  lemma {:induction false} TemplatesLeave(target: Path, files: seq<FileDescriptor>)
    ensures forall p :: p in Written(TemplateOps(target, files)) <==>
                          exists d :: d in files && !d.isDirectory && p == target + d.path
    ensures forall d :: d in files && d.isDirectory ==> target + d.path in Made(TemplateOps(target, files))
    decreases |files|
  {
    if files == [] {
      assert Written(TemplateOps(target, files)) == {};
    } else {
      var init, last := files[..|files| - 1], files[|files| - 1];
      assert files == init + [last];
      TemplatesLeave(target, init);
      WrittenAppend(TemplateOps(target, init), DescriptorOps(target, last));
      if last.isDirectory {
        WrittenSingle(Mkdirs(target + last.path));
      } else {
        var make, write := Mkdirs(Parent(target + last.path)), Write(target + last.path, Text(last.content));
        WrittenPair(make, write);
        WrittenSingle(make);
        WrittenSingle(write);
      }
    }
  }

  /** The files a completed run of a plan of this shape leaves behind. */
  lemma LayoutRunFiles(s: FsState<Content>, target: Path, b: seq<Op<Content>>, files: seq<FileDescriptor>,
                       f: seq<Op<Content>>)
    requires Run(s, [Mkdirs(target)] + b + TemplateOps(target, files) + f).error.None?
    ensures Run(s, [Mkdirs(target)] + b + TemplateOps(target, files) + f).state.files.Keys
            == s.files.Keys + Written(b) + Written(TemplateOps(target, files)) + Written(f)
  {
    var a, t := [Mkdirs(target)], TemplateOps(target, files);
    RunLeaves(s, a + b + t + f);
    WrittenAppend(a + b + t, f);
    WrittenAppend(a + b, t);
    WrittenAppend(a, b);
    WrittenSingle(Mkdirs(target));
  }

  /** The entries a completed run of a plan of this shape leaves behind. */
  lemma LayoutRunLeaves(s: FsState<Content>, target: Path, b: seq<Op<Content>>, files: seq<FileDescriptor>,
                        f: seq<Op<Content>>)
    requires Run(s, [Mkdirs(target)] + b + TemplateOps(target, files) + f).error.None?
    ensures var after := Run(s, [Mkdirs(target)] + b + TemplateOps(target, files) + f).state;
            && (forall d :: d in files && d.isDirectory ==> target + d.path in after.dirs)
            && (forall d :: d in files && !d.isDirectory ==> target + d.path in after.files)
  {
    var a, t := [Mkdirs(target)], TemplateOps(target, files);
    var after := Run(s, a + b + t + f).state;
    LayoutRunFiles(s, target, b, files, f);
    RunLeaves(s, a + b + t + f);
    WrittenAppend(a + b + t, f);
    WrittenAppend(a + b, t);
    TemplatesLeave(target, files);
    forall d | d in files && !d.isDirectory ensures target + d.path in after.files {
      assert target + d.path in Written(t);
    }
  }

  /** Every directory of the file structure exists afterwards, and so does every one of its files. */
  lemma PlanLeavesStructure(s: FsState<Content>, o: ProjectOptions, c: Components, target: Path)
    requires FreshTarget(s, target)
    ensures var after := Run(s, ProjectPlan(o, c, target)).state;
            && (forall d :: d in FileStructure(o, c) && d.isDirectory ==> target + d.path in after.dirs)
            && (forall d :: d in FileStructure(o, c) && !d.isDirectory ==> target + d.path in after.files)
  {
    PlanSucceeds(s, o, c, target);
    LayoutRunLeaves(s, target, ConfigWrites(o, target), FileStructure(o, c), FinalWrites(o, target));
  }

  /** The paths of the given names directly inside `target`. */
  function Root(target: Path, names: set<string>): set<Path>
  {
    set n | n in names :: target + [n]
  }

  lemma AppendCancel(target: Path, x: Path, y: Path)
    requires target + x == target + y
    ensures x == y
  {
    assert x == (target + x)[|target|..];
  }

  lemma RootMember(target: Path, names: set<string>, n: string)
    ensures target + [n] in Root(target, names) <==> n in names
  {
    if target + [n] in Root(target, names) {
      var m :| m in names && target + [n] == target + [m];
      AppendCancel(target, [n], [m]);
    }
  }

  function ManifestNames(o: ProjectOptions): set<string>
  {
    {"package.json"}
    + (if o.language == TypeScript then {"tsconfig.json"} else {})
    + {FrameworkFileName(o)}
  }

  function CssNames(o: ProjectOptions): set<string>
  {
    if o.cssTool == TailwindCss then {"tailwind.config.js", "postcss.config.js"} else {}
  }

  function ToolNames(o: ProjectOptions): set<string>
  {
    (if o.eslint then {".eslintrc.json"} else {}) + (if o.prettier then {".prettierrc"} else {})
  }

  /** The file names `generateProject` puts directly into the project directory. */
  function RootFiles(o: ProjectOptions): set<string>
  {
    ManifestNames(o) + CssNames(o) + ToolNames(o)
    + (if o.framework == React || o.framework == Vue then {"index.html"} else {})
    + {".gitignore", "README.md"}
  }

  lemma RootUnion(target: Path, x: set<string>, y: set<string>)
    ensures Root(target, x + y) == Root(target, x) + Root(target, y)
  {
  }

  lemma RootSingle(target: Path, name: string)
    ensures Root(target, {name}) == {target + [name]}
  {
    assert target + [name] in Root(target, {name});
  }

  lemma ManifestWritten(o: ProjectOptions, target: Path)
    ensures Written(ManifestWrites(o, target)) == Root(target, ManifestNames(o))
  {
    var pkg := [Write(target + ["package.json"], PackageJson(PackageManifest(o)))];
    var ts, fw := TsConfigWrites(o, target), FrameworkWrites(o, target);
    var tsNames: set<string> := if o.language == TypeScript then {"tsconfig.json"} else {};
    var fwName := GenerateFrameworkConfig(o).value.filename;
    FrameworkConfigName(o);
    WrittenSingle(pkg[0]);
    RootSingle(target, "package.json");
    if o.language == TypeScript {
      WrittenSingle(ts[0]);
      RootSingle(target, "tsconfig.json");
    } else {
      assert Written(ts) == {};
    }
    assert Written(ts) == Root(target, tsNames);
    WrittenSingle(fw[0]);
    RootSingle(target, fwName);
    assert Written(fw) == Root(target, {fwName});
    WrittenAppend(pkg, ts);
    WrittenAppend(pkg + ts, fw);
    RootUnion(target, {"package.json"}, tsNames);
    RootUnion(target, {"package.json"} + tsNames, {fwName});
  }

  lemma CssWritten(o: ProjectOptions, target: Path)
    ensures Written(CssWrites(target, CssConfigFiles(o))) == Root(target, CssNames(o))
  {
    var css := CssWrites(target, CssConfigFiles(o));
    if o.cssTool == TailwindCss {
      assert css == [css[0], css[1]];
      WrittenPair(css[0], css[1]);
      WrittenSingle(css[0]);
      WrittenSingle(css[1]);
    } else {
      assert Written(css) == {};
    }
  }

  lemma ToolWritten(o: ProjectOptions, target: Path)
    ensures Written(ToolWrites(o, target)) == Root(target, ToolNames(o))
  {
    var lint := if o.eslint && EslintFile(o).Some?
      then [Write(target + [EslintFile(o).value.filename], EslintJson(EslintFile(o).value.config))] else [];
    var format := if o.prettier && GeneratePrettierConfig(o).Some?
      then [Write(target + [GeneratePrettierConfig(o).value.filename], PrettierJson(GeneratePrettierConfig(o).value.config))]
      else [];
    WrittenAppend(lint, format);
    if o.eslint {
      WrittenSingle(lint[0]);
    } else {
      assert Written(lint) == {};
    }
    if o.prettier {
      WrittenSingle(format[0]);
    } else {
      assert Written(format) == {};
    }
  }

  lemma ConfigWritten(o: ProjectOptions, target: Path)
    ensures Written(ConfigWrites(o, target)) == Root(target, ManifestNames(o) + CssNames(o) + ToolNames(o))
  {
    ManifestWritten(o, target);
    CssWritten(o, target);
    ToolWritten(o, target);
    WrittenAppend(ManifestWrites(o, target), CssWrites(target, CssConfigFiles(o)));
    WrittenAppend(ManifestWrites(o, target) + CssWrites(target, CssConfigFiles(o)), ToolWrites(o, target));
  }

  lemma FinalWritten(o: ProjectOptions, target: Path)
    ensures Written(FinalWrites(o, target)) == Root(target, {".gitignore", "README.md"})
  {
    var f := FinalWrites(o, target);
    WrittenPair(f[0], f[1]);
    WrittenSingle(f[0]);
    WrittenSingle(f[1]);
  }

  /** Well-shaped entries land directly in `target` only as `index.html`. */
  lemma OnlyIndexHtmlInRoot(target: Path, files: seq<FileDescriptor>, n: string)
    requires forall d :: d in files ==> WellShaped(d)
    requires target + [n] in Written(TemplateOps(target, files))
    ensures n == "index.html" && Lists(files, ["index.html"])
  {
    TemplatesLeave(target, files);
    var d :| d in files && !d.isDirectory && target + [n] == target + d.path;
    AppendCancel(target, [n], d.path);
    var i :| 0 <= i < |files| && files[i] == d;
  }

  /** A listed `index.html` is written directly into `target`. */
  lemma IndexHtmlInRoot(target: Path, files: seq<FileDescriptor>)
    requires forall d :: d in files ==> WellShaped(d)
    requires Lists(files, ["index.html"])
    ensures target + ["index.html"] in Written(TemplateOps(target, files))
  {
    TemplatesLeave(target, files);
    var i :| 0 <= i < |files| && files[i].path == ["index.html"];
    var d := files[i];
    assert d in files;
    assert "index.html"[5] == '.';
    assert !IsDirName(d.path[0]);
    assert !d.isDirectory;
    assert target + ["index.html"] == target + d.path;
  }

  lemma ShapedInRoot(target: Path, files: seq<FileDescriptor>, n: string)
    requires forall d :: d in files ==> WellShaped(d)
    ensures target + [n] in Written(TemplateOps(target, files)) <==> n == "index.html" && Lists(files, ["index.html"])
  {
    if target + [n] in Written(TemplateOps(target, files)) {
      OnlyIndexHtmlInRoot(target, files, n);
    }
    if n == "index.html" && Lists(files, ["index.html"]) {
      IndexHtmlInRoot(target, files);
    }
  }

  /**
   * After a successful run the project directory holds, directly, exactly the
   * root files the options call for.
   */
  lemma PlanRootFiles(s: FsState<Content>, o: ProjectOptions, c: Components, target: Path)
    requires FreshTarget(s, target)
    ensures forall n :: target + [n] in Run(s, ProjectPlan(o, c, target)).state.files <==> n in RootFiles(o)
  {
    var b, files, f := ConfigWrites(o, target), FileStructure(o, c), FinalWrites(o, target);
    PlanSucceeds(s, o, c, target);
    LayoutRunFiles(s, target, b, files, f);
    NothingUnder(s, target);
    ConfigWritten(o, target);
    FinalWritten(o, target);
    DescriptorShapes(o, c);
    IndexHtmlPlanned(o, c);
    forall n ensures target + [n] in Run(s, ProjectPlan(o, c, target)).state.files <==> n in RootFiles(o) {
      assert Under(target, target + [n]);
      ShapedInRoot(target, files, n);
      RootMember(target, ManifestNames(o) + CssNames(o) + ToolNames(o), n);
      RootMember(target, {".gitignore", "README.md"}, n);
    }
  }

  /** The fixed root files are always there, with the framework's configuration. */
  lemma RootFilesAlways(o: ProjectOptions)
    ensures "package.json" in RootFiles(o) && ".gitignore" in RootFiles(o) && "README.md" in RootFiles(o)
    ensures GenerateFrameworkConfig(o).value.filename in RootFiles(o)
  {
    FrameworkConfigName(o);
  }

  /** `tsconfig.json` is a root file exactly under TypeScript. */
  lemma RootTsConfigRule(o: ProjectOptions)
    ensures "tsconfig.json" in RootFiles(o) <==> o.language == TypeScript
  {
    FrameworkFileNameShape(o);
  }

  /** The Tailwind and PostCSS configurations are root files exactly when Tailwind is chosen. */
  lemma RootTailwindRule(o: ProjectOptions)
    ensures "tailwind.config.js" in RootFiles(o) <==> o.cssTool == TailwindCss
    ensures "postcss.config.js" in RootFiles(o) <==> o.cssTool == TailwindCss
  {
    FrameworkFileNameShape(o);
  }

  /** `.eslintrc.json` is a root file exactly when ESLint is chosen. */
  lemma RootEslintRule(o: ProjectOptions)
    ensures ".eslintrc.json" in RootFiles(o) <==> o.eslint
  {
    FrameworkFileNameShape(o);
  }

  /** `.prettierrc` is a root file exactly when Prettier is chosen. */
  lemma RootPrettierRule(o: ProjectOptions)
    ensures ".prettierrc" in RootFiles(o) <==> o.prettier
  {
    FrameworkFileNameShape(o);
  }

  /** `index.html` is a root file exactly for the Vite frameworks. */
  lemma RootIndexHtmlRule(o: ProjectOptions)
    ensures "index.html" in RootFiles(o) <==> o.framework == React || o.framework == Vue
  {
    FrameworkFileNameShape(o);
  }

  lemma Regroup<T>(m: T, pkg: T, ts: seq<T>, fw: seq<T>, css: seq<T>, tools: seq<T>, t: seq<T>, f: seq<T>)
    ensures [m] + ([pkg] + ts + fw + css + tools) + t + f == [m] + [pkg] + (ts + fw + css + tools + t + f)
    ensures ts + fw + css + tools + t + f == (ts + fw + css + tools) + (t + f)
  {
  }

  /** The framework's configuration file is never named `package.json`. */
  lemma FrameworkNotManifest(o: ProjectOptions, target: Path)
    ensures target + ["package.json"] !in Written(FrameworkWrites(o, target))
  {
    var fw := FrameworkWrites(o, target);
    var name := GenerateFrameworkConfig(o).value.filename;
    FrameworkConfigName(o);
    WrittenSingle(fw[0]);
    assert (target + [name])[|target|] == name;
    assert (target + ["package.json"])[|target|] == "package.json";
    assert |"package.json"| == 12;
  }

  /** The configuration written after `package.json` never writes to it again. */
  lemma ManifestNotRewrittenByConfig(o: ProjectOptions, target: Path)
    ensures target + ["package.json"] !in
              Written(TsConfigWrites(o, target) + FrameworkWrites(o, target) + CssWrites(target, CssConfigFiles(o))
                      + ToolWrites(o, target))
  {
    var ts, fw, css, tools := TsConfigWrites(o, target), FrameworkWrites(o, target), CssWrites(target, CssConfigFiles(o)),
      ToolWrites(o, target);
    WrittenAppend(ts + fw + css, tools);
    WrittenAppend(ts + fw, css);
    WrittenAppend(ts, fw);
    if o.language == TypeScript {
      WrittenSingle(ts[0]);
      assert (target + ["package.json"])[|target|] == "package.json";
      assert (target + ["tsconfig.json"])[|target|] == "tsconfig.json";
      assert "package.json"[0] != "tsconfig.json"[0];
    } else {
      assert Written(ts) == {};
    }
    FrameworkNotManifest(o, target);
    CssWritten(o, target);
    RootMember(target, CssNames(o), "package.json");
    ToolWritten(o, target);
    RootMember(target, ToolNames(o), "package.json");
  }

  /** The template entries and the closing files never write to `package.json`. */
  lemma ManifestNotRewrittenLater(o: ProjectOptions, c: Components, target: Path)
    ensures target + ["package.json"] !in Written(TemplateOps(target, FileStructure(o, c)) + FinalWrites(o, target))
  {
    WrittenAppend(TemplateOps(target, FileStructure(o, c)), FinalWrites(o, target));
    DescriptorShapes(o, c);
    ShapedInRoot(target, FileStructure(o, c), "package.json");
    FinalWritten(o, target);
    RootMember(target, {".gitignore", "README.md"}, "package.json");
  }

  /** `package.json` holds the generated manifest after a successful run. */
  lemma ManifestContent(s: FsState<Content>, o: ProjectOptions, c: Components, target: Path)
    requires FreshTarget(s, target)
    ensures var after := Run(s, ProjectPlan(o, c, target)).state;
            target + ["package.json"] in after.files && after.files[target + ["package.json"]] == PackageJson(PackageManifest(o))
  {
    var pkg := Write(target + ["package.json"], PackageJson(PackageManifest(o)));
    var ts, fw, css, tools := TsConfigWrites(o, target), FrameworkWrites(o, target), CssWrites(target, CssConfigFiles(o)),
      ToolWrites(o, target);
    var t, f := TemplateOps(target, FileStructure(o, c)), FinalWrites(o, target);
    PlanSucceeds(s, o, c, target);
    Regroup(Mkdirs(target), pkg, ts, fw, css, tools, t, f);
    ManifestNotRewrittenByConfig(o, target);
    ManifestNotRewrittenLater(o, c, target);
    WrittenAppend(ts + fw + css + tools, t + f);
    RunKeepsWrite(s, [Mkdirs(target)], pkg.path, pkg.content, ts + fw + css + tools + t + f);
  }

  /** `.gitignore` and `README.md`, written last, hold what their generators produce. */
  lemma ClosingContents(s: FsState<Content>, o: ProjectOptions, c: Components, target: Path)
    requires FreshTarget(s, target)
    ensures var after := Run(s, ProjectPlan(o, c, target)).state;
            && target + [".gitignore"] in after.files
            && after.files[target + [".gitignore"]] == Text(Gitignore(o.framework))
            && target + ["README.md"] in after.files
            && after.files[target + ["README.md"]] == Text(Readme(o))
  {
    PlanSucceeds(s, o, c, target);
    assert (target + [".gitignore"])[|target|] == ".gitignore";
    assert (target + ["README.md"])[|target|] == "README.md";
    assert ".gitignore"[0] != "README.md"[0];
    RunLastTwoWrites(s, [Mkdirs(target)] + ConfigWrites(o, target) + TemplateOps(target, FileStructure(o, c)),
                     target + [".gitignore"], Text(Gitignore(o.framework)), target + ["README.md"], Text(Readme(o)));
  }
}
