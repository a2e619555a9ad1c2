# chi-dev-cli project scaffolder, modelled in Dafny

`chi-dev-cli` is a command-line tool that asks a few questions and then
creates a front-end project on disk. The answers are:
- a project name;
- a package manager: npm, yarn, pnpm or bun;
- a framework: React, Vue, Next.js or Astro;
- a CSS tool: Tailwind CSS, SCSS or plain CSS;
- a language: TypeScript or JavaScript;
- whether to add ESLint;
- whether to add Prettier.

This project models the core of that tool and proves what it produces:

- `options.dfy` (module `Options`) covers the answers (`ProjectOptions`).
  - It models the name validator of the interactive prompt, including JavaScript's `trim`.
  - It models which questions are asked.
  - It models how a name given on the command line overrides the prompted one.
- `config_generators.dfy` (module `ConfigGenerators`) models the configuration documents.
  - These are `package.json`, `tsconfig.json`, the framework configuration, the Tailwind and PostCSS configurations, `.eslintrc.json` and `.prettierrc`.
  - Each document is a typed record: keys that the source adds only conditionally are `Option` fields.
  - Package names and script names are closed datatypes, mapped to their npm names and pinned versions.
  - `generatePackageJson` fills its dependency and script dictionaries step by step, so its phases are methods over `map`s, proved against the specification function `PackageManifest`.
- `structure.dfy`, `entry.dfy`, `html.dfy` and `styles.dfy` (modules `Structure`, `Entry`, `Html` and `Styles`) model the template layer.
  - This is the list of directories and files a project receives, and the texts of the entry module, `index.html` and the stylesheet.
- `file_system.dfy` (module `FileSystem`) models the filesystem.
  - It is an abstract filesystem: a value `FsState` with a one-step semantics `Step` for "make directories" and "write file", and the run of a sequence of such operations, `Run`, which stops at the first failure.
  - The class `FileSystem` holds the same state in mutable fields. Its methods `PathExists`, `EnsureDir` and `WriteFile` stand for the `fs-extra` calls and are proved to follow `Step`.
- `project_generator.dfy` (module `ProjectGenerator`) models `generateProject`, `generateGitignore` and `generateReadme`.
  - `GenerateProject` drives a `FileSystem` object through the same calls in the same order as the source. It is proved to leave exactly the state of `Run` over the plan `ProjectPlan`.
  - Lemmas about `ProjectPlan` prove the following:
    - on a fresh target the plan never fails;
    - every planned directory and file exists afterwards;
    - the project directory directly holds exactly the root files the options call for;
    - `package.json`, `.gitignore` and `README.md` hold what their generators produce.
- `common.dfy` (module `Common`) holds shared helpers: `Option`, `Result`, substring occurrence and paths as segment sequences.

Text documents are modelled to the character. JSON documents are modelled as records of their keys and values, not as serialised bytes.

## Model

| member | source | states |
|---|---|---|
| Options.Trim | src/utils/prompts.ts:23 | The result is empty iff every character of the input is JavaScript white space; a non-empty result starts and ends with a non-white-space character |
| Options.TrimStart | src/utils/prompts.ts:23 | The result is a suffix of the input; everything dropped is white space; the result does not start with white space |
| Options.TrimEnd | src/utils/prompts.ts:23 | The result is a prefix of the input; everything dropped is white space; the result does not end with white space |
| Options.Validate | src/utils/prompts.ts:22-30 | Accepted iff the name matches `^[a-z0-9-]+$` case-insensitively; an all-white-space name gets the "cannot be empty" message; any other rejection gets the "letters, numbers, and hyphens" message |
| Options.Questions | src/utils/prompts.ts:13-73 | The name question is asked iff no name was supplied; the six choice questions always follow, in order |
| Options.MergeAnswers | src/utils/prompts.ts:75-78 | A supplied (non-empty) name overrides the prompted one; every other option is the answer given |
| Options.PromptedNameMatchesPattern | src/utils/prompts.ts:17-31 | A name that went through the prompt satisfies the name pattern |
| Options.SuppliedNameIsNotValidated | src/utils/prompts.ts:17 | A non-empty name supplied on the command line becomes the project name whatever the validator says, so a rejected name stays in the record |
| Options.SuppliedRejectedNameExists | src/utils/prompts.ts:17 | Such a name exists: "my app" is rejected for its characters and still becomes the project name |
| ConfigGenerators.AllPackagesComplete | src/utils/configGenerators.ts:13-74 | The enumeration of packages lists every package the generator can name |
| ConfigGenerators.AllScriptsComplete | src/utils/configGenerators.ts:81-100 | The enumeration of scripts lists every script the generator can add |
| ConfigGenerators.PackageManifest | src/utils/configGenerators.ts:107-119 | The name is the project name, the version is 0.1.0 and the package is private; `type: module` is present iff the framework is not Next.js |
| ConfigGenerators.GeneratePackageJson | src/utils/configGenerators.ts:3-122 | The manifest built step by step equals the specification `PackageManifest` |
| ConfigGenerators.AddFrameworkPackages | src/utils/configGenerators.ts:12-28 | The framework block declares exactly the framework's runtime packages and build tooling, at their pinned versions |
| ConfigGenerators.AddCssPackages | src/utils/configGenerators.ts:30-37 | Adds exactly the CSS tool's packages and keeps every earlier entry |
| ConfigGenerators.AddTypeScriptPackages | src/utils/configGenerators.ts:39-49 | Adds exactly the TypeScript packages for the framework and keeps every earlier entry |
| ConfigGenerators.AddLintPackages | src/utils/configGenerators.ts:51-66 | Adds exactly the ESLint packages for the language and framework and keeps every earlier entry |
| ConfigGenerators.AddFormatPackages | src/utils/configGenerators.ts:68-74 | Adds exactly the Prettier packages (the Tailwind plugin only with Tailwind) and keeps every earlier entry |
| ConfigGenerators.AddScripts | src/utils/configGenerators.ts:76-105 | Holds a script iff the framework and options call for it, each with the framework's command |
| ConfigGenerators.ScriptMap | src/utils/configGenerators.ts:76-111 | Any map with exactly the required scripts and commands is the manifest's `scripts` |
| ConfigGenerators.RuntimeMap | src/utils/configGenerators.ts:12-28 | Any pinned map with exactly the runtime packages is the manifest's `dependencies` |
| ConfigGenerators.DevMap | src/utils/configGenerators.ts:12-74 | Any pinned map with exactly the development packages is the manifest's `devDependencies` |
| ConfigGenerators.ManifestDeclares | src/utils/configGenerators.ts:9-74 | A package is a (development) dependency iff its rule holds, and it is always declared at its pinned version |
| ConfigGenerators.ManifestDependencyRules | src/utils/configGenerators.ts:12-74 | Vite iff React or Vue; typescript iff TypeScript; eslint iff chosen; sass iff SCSS; the Tailwind Prettier plugin iff Prettier with Tailwind; no package is both a runtime and a development dependency |
| ConfigGenerators.ManifestScriptRules | src/utils/configGenerators.ts:81-100 | `dev` and `build` always; `start` iff Next.js or Astro; `preview` iff React or Vue; `lint` iff Next.js with ESLint; `format` iff Prettier |
| ConfigGenerators.GenerateTsConfig | src/utils/configGenerators.ts:124-185 | None iff JavaScript; the Next.js, Astro or bundler variant by framework; Next.js maps `@/*` to `./src/*`; Astro extends `astro/tsconfigs/strict`; the bundler variant has `jsx` iff React, includes only `src` and has no paths |
| ConfigGenerators.VitePlugin | src/utils/configGenerators.ts:220 | The plugin is `react` exactly for React |
| ConfigGenerators.GenerateFrameworkConfig | src/utils/configGenerators.ts:187-234 | Every framework gets a configuration file: the trailing `return null` is unreachable |
| ConfigGenerators.AstroConfigHasNoReact | src/utils/configGenerators.ts:205-216 | The Astro configuration is `astro.config.mjs` and never contains the React integration or its import, because its React test sits inside the Astro branch |
| ConfigGenerators.ViteConfigLoadsDeclaredPlugin | src/utils/configGenerators.ts:219-231 | `vite.config.<ext>` imports `@vitejs/plugin-<plugin>`, and `package.json` declares that package |
| ConfigGenerators.NextConfigName | src/utils/configGenerators.ts:192-203 | Next.js gets `next.config.<ext>` with the fixed Next.js text |
| ConfigGenerators.CssConfigFiles | src/utils/configGenerators.ts:236-269 | Empty iff the tool is not Tailwind; otherwise `tailwind.config.js` then `postcss.config.js` |
| ConfigGenerators.GenerateCssConfig | src/utils/configGenerators.ts:236-269 | The list built by pushing equals `CssConfigFiles` |
| ConfigGenerators.TailwindToolchainDeclared | src/utils/configGenerators.ts:256-265 | The PostCSS configuration loads tailwindcss and autoprefixer, and `package.json` declares tailwindcss, postcss and autoprefixer |
| ConfigGenerators.EslintFile | src/utils/configGenerators.ts:271-330 | None iff ESLint is off; the file is `.eslintrc.json`; Next.js gets only `extends: next/core-web-vitals`; otherwise a parser iff TypeScript, React settings iff React, JSX iff React or Vue, the TypeScript preset and plugin first iff TypeScript, the React preset, hooks preset and plugins iff React, and the Vue preset and plugin iff Vue |
| ConfigGenerators.GenerateEslintConfig | src/utils/configGenerators.ts:271-330 | The configuration built by pushes and deletes equals `EslintFile` |
| ConfigGenerators.LintPackagesDeclared | src/utils/configGenerators.ts:52-66 | Every ESLint plugin and parser the configuration names is a declared development dependency |
| ConfigGenerators.LanguagePluginsDeclared | src/utils/configGenerators.ts:305-308 | The TypeScript ESLint plugin is declared in `package.json` |
| ConfigGenerators.FrameworkPluginsDeclared | src/utils/configGenerators.ts:310-321 | The framework's ESLint plugins are declared in `package.json` |
| ConfigGenerators.GeneratePrettierConfig | src/utils/configGenerators.ts:332-351 | None iff Prettier is off; `.prettierrc` with semi, single quotes, tab width 2, trailing comma es5 and print width 80; plugins iff Tailwind |
| ConfigGenerators.FormatPluginDeclared | src/utils/configGenerators.ts:343-345 | With Tailwind, the only Prettier plugin is `prettier-plugin-tailwindcss`, and it and prettier are declared |
| Structure.GetCssExtension | src/templates/structure.ts:81-90 | `scss` exactly for SCSS, `css` otherwise |
| Structure.FileStructure | src/templates/structure.ts:7-79 | The list always starts with the `src` directory |
| Structure.GetFileStructure | src/templates/structure.ts:7-79 | The list built by pushing equals `FileStructure` |
| Structure.NextLayoutDistinct | src/templates/structure.ts:15-31 | No path occurs twice in the Next.js layout |
| Structure.AstroLayoutDistinct | src/templates/structure.ts:33-49 | No path occurs twice in the Astro layout |
| Structure.BundlerLayoutDistinct | src/templates/structure.ts:51-72 | No path occurs twice in the React or Vue layout |
| Structure.BundlerNamesDiffer | src/templates/structure.ts:56-70 | The entry module, component, stylesheet and `vite-env.d.ts` have pairwise different names |
| Structure.PathsDistinct | src/templates/structure.ts:7-79 | No path occurs twice in any file structure |
| Structure.SegmentNames | src/templates/structure.ts:12-69 | Directory names have no dot and file names have one |
| Structure.NextLayoutShapes | src/templates/structure.ts:15-31 | Every Next.js entry is a dot-free directory or a dotted file in a dot-free directory |
| Structure.AstroLayoutShapes | src/templates/structure.ts:33-49 | Every Astro entry is well shaped |
| Structure.BundlerLayoutShapes | src/templates/structure.ts:51-72 | Every React or Vue entry is well shaped |
| Structure.DescriptorShapes | src/templates/structure.ts:7-79 | Every entry of every file structure is well shaped |
| Structure.Paths | src/templates/structure.ts:7-79 | The paths of a list of entries, position by position |
| Structure.NextPaths | src/templates/structure.ts:15-31 | The Next.js list has the planned paths in the planned order |
| Structure.AstroPaths | src/templates/structure.ts:33-49 | The Astro list has the planned paths in the planned order |
| Structure.BundlerFilesPaths | src/templates/structure.ts:54-70 | The React or Vue files are `index.html`, the entry module, the component and the stylesheet, then `vite-env.d.ts` iff React with TypeScript |
| Structure.BundlerPaths | src/templates/structure.ts:51-72 | The React or Vue list has the planned paths in the planned order |
| Structure.PlanPaths | src/templates/structure.ts:7-79 | Every file structure has the planned paths in the planned order |
| Structure.ListedIffPlanned | src/templates/structure.ts:7-79 | A path is listed iff it is planned |
| Structure.IndexHtmlInPlannedPaths | src/templates/structure.ts:54 | `index.html` is planned iff the framework is React or Vue |
| Structure.IndexHtmlPlanned | src/templates/structure.ts:54 | `index.html` is listed iff the framework is React or Vue |
| Structure.ViteEnvInPlannedPaths | src/templates/structure.ts:67-70 | `src/vite-env.d.ts` is planned iff React with TypeScript |
| Structure.ViteEnvPlanned | src/templates/structure.ts:67-70 | `src/vite-env.d.ts` is listed iff React with TypeScript (never for Vue) |
| Structure.NextAppPlanned | src/templates/structure.ts:15-31 | Next.js lists `src/app`, its layout and its page; `src/app/globals.css` is listed iff Next.js with Tailwind |
| Structure.NextAppInPlannedPaths | src/templates/structure.ts:15-31 | For Next.js, `src/app`, its layout and its page are planned; `src/app/globals.css` is planned iff Next.js with Tailwind |
| Structure.AstroPagesPlanned | src/templates/structure.ts:33-49 | Astro lists `src/pages` and its index page; `src/styles/globals.css` is listed iff Astro with Tailwind |
| Structure.AstroStylesheetInPlannedPaths | src/templates/structure.ts:38-42 | `src/styles/globals.css` is planned iff Astro with Tailwind |
| Structure.AstroStylesDirAfterItsFile | src/templates/structure.ts:40-41 | In the Astro layout the stylesheet is listed before its own directory `src/styles` |
| Structure.CssImportNamesStylesheet | src/templates/entry.ts:41-52 | The entry module imports `./` followed by the stylesheet's file name |
| Structure.StylesheetNames | src/templates/structure.ts:64-65 | The stylesheet is `src/index.scss` for SCSS and `src/index.css` otherwise |
| Structure.BundlerStylesheetsInPlannedPaths | src/templates/structure.ts:64-65 | `src/index.scss` is planned iff React or Vue with SCSS; `src/index.css` iff React or Vue without SCSS |
| Structure.BundlerStylesheetPlanned | src/templates/structure.ts:64-65 | The same for the listing, and the React or Vue entry module imports exactly the stylesheet that is listed |
| Structure.BundlerEntriesInPlannedPaths | src/templates/structure.ts:56-62 | `src/main.<tsx or jsx>` is planned iff React; Vue's entry `src/main.<ts or js>` is planned; `src/App.vue` iff Vue |
| Structure.ScriptSrcNamesMain | src/templates/html.ts:12-23 | The script of `index.html` points at `/src/main.<tsx or jsx>` |
| Structure.BundlerEntriesPlanned | src/templates/structure.ts:56-62 | The file `index.html` loads is listed iff React, so a Vue project's `index.html` points at a file it does not receive; `src/App.vue` is listed iff Vue |
| Entry.GetCssImport | src/templates/entry.ts:41-51 | SCSS imports `./index.scss`; Tailwind and plain CSS both import `./index.css` |
| Entry.GenerateMainFile | src/templates/entry.ts:3-39 | Empty iff the framework is Next.js or Astro |
| Entry.ReactMainFileImports | src/templates/entry.ts:11-24 | The React entry imports `App`, imports the stylesheet and renders into `#root` |
| Entry.VueMainFileImports | src/templates/entry.ts:26-34 | The Vue entry imports `App.vue`, imports the stylesheet and mounts on `#root` |
| Entry.GenerateViteEnvFile | src/templates/entry.ts:53-62 | Non-empty iff TypeScript |
| Html.GenerateIndexHtml | src/templates/html.ts:3-28 | Empty iff the framework is Next.js or Astro |
| Html.IndexHtmlContents | src/templates/html.ts:12-26 | The page holds the project name as its title, the `root` div and the module script for the language |
| Html.IndexHtmlIgnoresFramework | src/templates/html.ts:9-26 | Vue gets the same page as React |
| Styles.GenerateCssFile | src/templates/styles.ts:3-57 | The stylesheet is never empty, and it starts with the Tailwind directives iff the tool is Tailwind |
| Styles.ScssAndCssAgree | src/templates/styles.ts:20-56 | SCSS and plain CSS get the same text |
| FileSystem.Run | src/utils/projectGenerator.ts:19-121 | A run with no error applied every operation; the applied operations are always a prefix of the plan |
| FileSystem.RunAppend | src/utils/projectGenerator.ts:19-121 | Running two sequences in turn is running their concatenation |
| FileSystem.RunSnoc | src/utils/projectGenerator.ts:19-121 | One more operation does nothing after a failure, and otherwise is one step |
| FileSystem.StepValid | src/utils/projectGenerator.ts:28-106 | A successful step keeps the filesystem well formed: the root is a directory, every entry's parent is a directory, and no path is both |
| FileSystem.RunFailure | src/utils/projectGenerator.ts:118-121 | A failed run stopped before the end, at the first operation whose step fails, and keeps everything done before it |
| FileSystem.RunLeaves | src/utils/projectGenerator.ts:28-106 | After a successful run the files are the old ones plus those written, and every directory asked for exists |
| FileSystem.RunUntouched | src/utils/projectGenerator.ts:28-106 | A file no operation writes keeps its presence and content |
| FileSystem.RunLastWrite | src/utils/projectGenerator.ts:101-106 | The last write of a successful run leaves its content |
| FileSystem.RunKeepsWrite | src/utils/projectGenerator.ts:33 | A write that no later operation repeats leaves its content |
| FileSystem.RunLastTwoWrites | src/utils/projectGenerator.ts:99-106 | The last two writes, to different files, both leave their contents |
| FileSystem.NothingUnder | src/utils/projectGenerator.ts:21-24 | When the target does not exist, nothing lies below it |
| FileSystem.StartTidy | src/utils/projectGenerator.ts:28 | Making a fresh target starts the tidy invariant: below the target, files have dotted names and directories dot-free ones |
| FileSystem.MkdirsTidy | src/utils/projectGenerator.ts:90-93 | Making a dot-free directory below the target succeeds and keeps the tidy invariant |
| FileSystem.WriteTidy | src/utils/projectGenerator.ts:94 | Writing a dotted file into an existing directory below the target succeeds and keeps the tidy invariant |
| FileSystem.TopLevelWritesRun | src/utils/projectGenerator.ts:33-83 | Writes of dotted names directly into a tidy target all succeed and keep it tidy |
| FileSystem.FileSystem.PathExists | src/utils/projectGenerator.ts:21 | True iff a file or directory is at the path |
| FileSystem.FileSystem.EnsureDir | src/utils/projectGenerator.ts:28 | Creates the path and its ancestors, or fails on a file in the way, exactly as one `Mkdirs` step |
| FileSystem.FileSystem.WriteFile | src/utils/projectGenerator.ts:58 | Writes the file, or fails on a directory at the path or a missing parent, exactly as one `Write` step |
| ProjectGenerator.BuildOutputDir | src/utils/projectGenerator.ts:159 | `.next/` iff Next.js, `.astro/` iff Astro, otherwise `dist/` |
| ProjectGenerator.Gitignore | src/utils/projectGenerator.ts:146-200 | The common body with the build directory is a prefix; Next.js appends the `out/` section, Astro the `.astro/` section, React and Vue nothing |
| ProjectGenerator.AstroOutputListedTwice | src/utils/projectGenerator.ts:159-197 | For Astro, `.astro/` occurs both in the common body and in the appended section |
| ProjectGenerator.RunCommand | src/utils/projectGenerator.ts:204 | `npm run` for npm, otherwise the bare manager name |
| ProjectGenerator.Readme | src/utils/projectGenerator.ts:202-239 | The README is the introduction, the commands, the stack and the tool lines: it starts with the introduction and ends with the tool lines. The three lemmas below pin the title, the commands and the tool lines |
| ProjectGenerator.ReadmeStartsWithTitle | src/utils/projectGenerator.ts:206 | The README starts with a `# ` title line holding the project name |
| ProjectGenerator.ReadmeShowsCommands | src/utils/projectGenerator.ts:214-228 | The README shows the install command and the dev and build commands with the right run prefix |
| ProjectGenerator.ReadmeToolLines | src/utils/projectGenerator.ts:236-238 | The ESLint line appears iff ESLint is chosen and the Prettier line iff Prettier is chosen |
| ProjectGenerator.CssWrites | src/utils/projectGenerator.ts:56-59 | One write per CSS configuration, in order, into the project directory |
| ProjectGenerator.Perform | src/utils/projectGenerator.ts:118-121 | After a failure nothing more is done; otherwise the operation is carried out and its outcome recorded |
| ProjectGenerator.WriteManifests | src/utils/projectGenerator.ts:30-52 | Carries out the `package.json`, `tsconfig.json` and framework-configuration writes |
| ProjectGenerator.WriteTsConfig | src/utils/projectGenerator.ts:35-42 | Writes `tsconfig.json` iff TypeScript |
| ProjectGenerator.WriteFrameworkConfig | src/utils/projectGenerator.ts:44-52 | Writes the framework configuration |
| ProjectGenerator.WriteCssConfigs | src/utils/projectGenerator.ts:54-59 | Writes every CSS configuration in order |
| ProjectGenerator.WriteToolConfigs | src/utils/projectGenerator.ts:61-83 | Writes the ESLint and Prettier configurations, each iff chosen |
| ProjectGenerator.WriteDescriptor | src/utils/projectGenerator.ts:89-95 | A directory entry is made; a file entry gets its parent directory made and is then written |
| ProjectGenerator.WriteTemplates | src/utils/projectGenerator.ts:85-96 | Carries out every entry of the file structure in order |
| ProjectGenerator.GenerateProject | src/utils/projectGenerator.ts:16-122 | An existing target is refused with nothing changed; otherwise the state is that of running the whole plan until its first failure, the failure is reported, and without one the project is created whether or not git succeeds |
| ProjectGenerator.FrameworkConfigName | src/utils/configGenerators.ts:192-231 | The framework configuration is `next.config.<ext>`, `astro.config.mjs` or `vite.config.<ext>` by framework; the name is dotted, 14 or 16 characters long, and starts with neither `.`, `i` nor `R` |
| ProjectGenerator.ConfigWritesTopLevel | src/utils/projectGenerator.ts:30-83 | Every configuration write is a dotted name directly in the project directory |
| ProjectGenerator.DescriptorRuns | src/utils/projectGenerator.ts:89-95 | One well-shaped entry succeeds in a tidy target and keeps it tidy |
| ProjectGenerator.TemplatesRun | src/utils/projectGenerator.ts:85-96 | All template entries succeed in a tidy target and keep it tidy |
| ProjectGenerator.PlanSucceeds | src/utils/projectGenerator.ts:16-106 | Started on a well-formed filesystem where the target and every file on its path are absent, the whole plan succeeds, whatever the options |
| ProjectGenerator.TemplatesLeave | src/utils/projectGenerator.ts:85-96 | The template entries write exactly their files and make every directory they list |
| ProjectGenerator.PlanLeavesStructure | src/utils/projectGenerator.ts:85-96 | After a successful run every listed directory and every listed file exists |
| ProjectGenerator.ManifestWritten | src/utils/projectGenerator.ts:30-52 | The manifest writes produce exactly `package.json`, `tsconfig.json` iff TypeScript, and the framework configuration |
| ProjectGenerator.CssWritten | src/utils/projectGenerator.ts:54-59 | The CSS writes produce exactly the Tailwind and PostCSS files iff Tailwind |
| ProjectGenerator.ToolWritten | src/utils/projectGenerator.ts:61-83 | The tool writes produce exactly `.eslintrc.json` iff ESLint and `.prettierrc` iff Prettier |
| ProjectGenerator.FinalWritten | src/utils/projectGenerator.ts:98-106 | The closing writes produce exactly `.gitignore` and `README.md` |
| ProjectGenerator.ShapedInRoot | src/utils/projectGenerator.ts:85-96 | The only template file directly in the project directory is `index.html`, when listed |
| ProjectGenerator.PlanRootFiles | src/utils/projectGenerator.ts:16-106 | A name is a file directly in the project directory afterwards iff it is one of the root files the options call for |
| ProjectGenerator.RootFilesAlways | src/utils/projectGenerator.ts:33-106 | `package.json`, the framework configuration, `.gitignore` and `README.md` are always root files |
| ProjectGenerator.RootTsConfigRule | src/utils/projectGenerator.ts:36-42 | `tsconfig.json` is a root file iff TypeScript |
| ProjectGenerator.RootTailwindRule | src/utils/projectGenerator.ts:55-59 | `tailwind.config.js` and `postcss.config.js` are root files iff Tailwind |
| ProjectGenerator.RootEslintRule | src/utils/projectGenerator.ts:61-71 | `.eslintrc.json` is a root file iff ESLint is chosen |
| ProjectGenerator.RootPrettierRule | src/utils/projectGenerator.ts:73-83 | `.prettierrc` is a root file iff Prettier is chosen |
| ProjectGenerator.RootIndexHtmlRule | src/utils/projectGenerator.ts:85-96 | `index.html` is a root file iff the framework is React or Vue |
| ProjectGenerator.FrameworkNotManifest | src/utils/projectGenerator.ts:44-52 | The framework configuration never overwrites `package.json` |
| ProjectGenerator.ManifestNotRewrittenByConfig | src/utils/projectGenerator.ts:35-83 | No configuration written after `package.json` writes to it again |
| ProjectGenerator.ManifestNotRewrittenLater | src/utils/projectGenerator.ts:85-106 | Neither the templates nor the closing files write to `package.json` |
| ProjectGenerator.ManifestContent | src/utils/projectGenerator.ts:32-33 | After a successful run `package.json` holds the generated manifest |
| ProjectGenerator.ClosingContents | src/utils/projectGenerator.ts:99-106 | After a successful run `.gitignore` and `README.md` hold what their generators produce |

## Left out

- The interactive prompt itself, the spinner and coloured output (inquirer, ora, chalk) are terminal I/O. Only the questions, the validator and the merging of answers are modelled.
- `src/cli.ts` and `src/commands/init.ts` parse the command line and report errors. They are outside this model.
- The git step (`initGitRepository`) runs subprocesses. Its success or failure is the `gitSucceeds` parameter of `GenerateProject`. The `.git` directory it creates is not modelled, and neither is the commit that may or may not be made.
- JSON documents are records, not text. Key order, two-space indentation and the removal of `undefined` keys by serialisation are not modelled beyond the `Option` fields.
- `components.ts` (`generateAppComponent`, `generateNextLayout`) is not part of this model. Its texts are the parameter `Components`.
- The options are closed datatypes. So the TypeScript `default` branches, and the `return null` of `generateFrameworkConfig`, are unreachable, and `GenerateFrameworkConfig` proves the null return cannot happen. The other defaults, in the CSS-tool and language switches and in `html.ts`, share their branch with the last named case. Two do not: the `default` of `getFileStructure` (src/templates/structure.ts:74-75) adds no files, and the `default` of `generateMainFile` (src/templates/entry.ts:36-37) returns `''`. Neither is reachable, so neither is modelled.
- The filesystem is abstract. Paths are sequences of segments and there are no permissions, no symbolic links and no disk-full errors. The target directory is one path, and `path.join` and `path.dirname` are concatenation and dropping the last segment.
- `src/templates/index.ts` only re-exports. `tsup.config.ts` is build configuration. Neither is modelled.
- BuildOutputDir: that `dist/` is used for React and Vue is stated as an implication, not as an if-and-only-if.
- GenerateProject: a failed run leaves the partially created project behind, as the source does. `FileSystem.RunFailure` states what is kept. The log records only operations that took effect.
