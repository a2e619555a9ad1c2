/**
 * The configuration documents a new project gets: the package manifest, the
 * TypeScript compiler config, the framework's own config file, the CSS tool's
 * config files, the lint config and the formatter config.  Documents are kept
 * as structured values; a key the source leaves out of a JSON object is a
 * `None` field here.
 */
module ConfigGenerators {
  import opened Common
  import opened Options

  // ---------------------------------------------------------------------------
  // The package manifest

  /** Every package the manifest may declare. */
  datatype Package =
    | ReactRuntime | ReactDom | VitePluginReact | Vite | VueRuntime | VitePluginVue
    | NextRuntime | AstroRuntime
    | Tailwindcss | Postcss | Autoprefixer | Sass
    | TypeScriptCompiler | TypesNode | TypesReact | TypesReactDom | VolarPug
    | Eslint | TsEslintPlugin | TsEslintParser | EslintPluginReact | EslintPluginReactHooks
    | EslintPluginVue | EslintConfigNext
    | Prettier | PrettierPluginTailwind

  const AllPackages: set<Package> := {
    ReactRuntime, ReactDom, VitePluginReact, Vite, VueRuntime, VitePluginVue,
    NextRuntime, AstroRuntime,
    Tailwindcss, Postcss, Autoprefixer, Sass,
    TypeScriptCompiler, TypesNode, TypesReact, TypesReactDom, VolarPug,
    Eslint, TsEslintPlugin, TsEslintParser, EslintPluginReact, EslintPluginReactHooks,
    EslintPluginVue, EslintConfigNext,
    Prettier, PrettierPluginTailwind }

  lemma AllPackagesComplete(p: Package)
    ensures p in AllPackages
  {
  }

  /** The registry name of each package. */
  function PackageName(p: Package): string
  {
    match p
    case ReactRuntime => "react"
    case ReactDom => "react-dom"
    case VitePluginReact => "@vitejs/plugin-react"
    case Vite => "vite"
    case VueRuntime => "vue"
    case VitePluginVue => "@vitejs/plugin-vue"
    case NextRuntime => "next"
    case AstroRuntime => "astro"
    case Tailwindcss => "tailwindcss"
    case Postcss => "postcss"
    case Autoprefixer => "autoprefixer"
    case Sass => "sass"
    case TypeScriptCompiler => "typescript"
    case TypesNode => "@types/node"
    case TypesReact => "@types/react"
    case TypesReactDom => "@types/react-dom"
    case VolarPug => "@volar/vue-language-plugin-pug"
    case Eslint => "eslint"
    case TsEslintPlugin => "@typescript-eslint/eslint-plugin"
    case TsEslintParser => "@typescript-eslint/parser"
    case EslintPluginReact => "eslint-plugin-react"
    case EslintPluginReactHooks => "eslint-plugin-react-hooks"
    case EslintPluginVue => "eslint-plugin-vue"
    case EslintConfigNext => "eslint-config-next"
    case Prettier => "prettier"
    case PrettierPluginTailwind => "prettier-plugin-tailwindcss"
  }

  /** The version range each package is pinned to, the same wherever it is declared. */
  function Version(p: Package): string
  {
    match p
    case ReactRuntime => "^18.3.1"
    case ReactDom => "^18.3.1"
    case VitePluginReact => "^4.3.1"
    case Vite => "^5.4.0"
    case VueRuntime => "^3.5.13"
    case VitePluginVue => "^5.2.1"
    case NextRuntime => "^15.1.3"
    case AstroRuntime => "^5.1.3"
    case Tailwindcss => "^3.4.17"
    case Postcss => "^8.4.49"
    case Autoprefixer => "^10.4.20"
    case Sass => "^1.83.0"
    case TypeScriptCompiler => "^5.7.2"
    case TypesNode => "^22.10.2"
    case TypesReact => "^18.3.12"
    case TypesReactDom => "^18.3.1"
    case VolarPug => "^2.1.6"
    case Eslint => "^9.17.0"
    case TsEslintPlugin => "^8.18.2"
    case TsEslintParser => "^8.18.2"
    case EslintPluginReact => "^7.37.3"
    case EslintPluginReactHooks => "^5.1.0"
    case EslintPluginVue => "^9.32.0"
    case EslintConfigNext => "^15.1.3"
    case Prettier => "^3.4.2"
    case PrettierPluginTailwind => "^0.6.9"
  }

  /** When a package is a runtime dependency, package by package. */
  predicate RuntimeDependency(o: ProjectOptions, p: Package)
  {
    match p
    case ReactRuntime => o.framework == React || o.framework == NextJs
    case ReactDom => o.framework == React || o.framework == NextJs
    case VueRuntime => o.framework == Vue
    case NextRuntime => o.framework == NextJs
    case AstroRuntime => o.framework == Astro
    case _ => false
  }

  /** The bundler and its framework plugin. */
  predicate FrameworkTooling(o: ProjectOptions, p: Package)
  {
    match p
    case VitePluginReact => o.framework == React
    case Vite => o.framework == React || o.framework == Vue
    case VitePluginVue => o.framework == Vue
    case _ => false
  }

  /** The CSS tool's packages. */
  predicate CssTooling(o: ProjectOptions, p: Package)
  {
    match p
    case Tailwindcss => o.cssTool == TailwindCss
    case Postcss => o.cssTool == TailwindCss
    case Autoprefixer => o.cssTool == TailwindCss
    case Sass => o.cssTool == Scss
    case _ => false
  }

  /** The compiler and type packages of a TypeScript project. */
  predicate LanguageTooling(o: ProjectOptions, p: Package)
  {
    var ts := o.language == TypeScript;
    match p
    case TypeScriptCompiler => ts
    case TypesNode => ts
    case TypesReact => ts && o.framework == React
    case TypesReactDom => ts && o.framework == React
    case VolarPug => ts && o.framework == Vue
    case _ => false
  }

  /** The linter, its TypeScript parser and plugin, and the framework's lint package. */
  predicate LintTooling(o: ProjectOptions, p: Package)
  {
    match p
    case Eslint => o.eslint
    case TsEslintPlugin => o.eslint && o.language == TypeScript
    case TsEslintParser => o.eslint && o.language == TypeScript
    case EslintPluginReact => o.eslint && o.framework == React
    case EslintPluginReactHooks => o.eslint && o.framework == React
    case EslintPluginVue => o.eslint && o.framework == Vue
    case EslintConfigNext => o.eslint && o.framework == NextJs
    case _ => false
  }

  /** The formatter and its Tailwind plugin. */
  predicate FormatTooling(o: ProjectOptions, p: Package)
  {
    match p
    case Prettier => o.prettier
    case PrettierPluginTailwind => o.prettier && o.cssTool == TailwindCss
    case _ => false
  }

  /** When a package is a development dependency: when one of the groups above calls for it. */
  predicate DevDependency(o: ProjectOptions, p: Package)
  {
    FrameworkTooling(o, p) || CssTooling(o, p) || LanguageTooling(o, p) || LintTooling(o, p) || FormatTooling(o, p)
  }

  datatype Script = Dev | Build | Start | Preview | Lint | Format

  const AllScripts: set<Script> := {Dev, Build, Start, Preview, Lint, Format}

  lemma AllScriptsComplete(s: Script)
    ensures s in AllScripts
  {
  }

  function ScriptName(s: Script): string
  {
    match s
    case Dev => "dev"
    case Build => "build"
    case Start => "start"
    case Preview => "preview"
    case Lint => "lint"
    case Format => "format"
  }

  const FormatCommand := "prettier --write \"**/*.{ts,tsx,js,jsx,json,css,scss,md}\""

  /** Which scripts the manifest defines. */
  predicate HasScript(o: ProjectOptions, s: Script)
  {
    match s
    case Dev => true
    case Build => true
    case Start => o.framework == NextJs || o.framework == Astro
    case Preview => o.framework == React || o.framework == Vue
    case Lint => o.framework == NextJs && o.eslint
    case Format => o.prettier
  }

  /** The command a defined script runs, by framework. */
  function ScriptCommand(f: Framework, s: Script): string
  {
    match s
    case Dev => if f == NextJs then "next dev" else if f == Astro then "astro dev" else "vite"
    case Build => if f == NextJs then "next build" else if f == Astro then "astro build" else "vite build"
    case Start => if f == NextJs then "next start" else "astro preview"
    case Preview => "vite preview"
    case Lint => "next lint"
    case Format => FormatCommand
  }

  /** `package.json`; `moduleType` is the `type` key. */
  datatype Manifest = Manifest(
    name: string,
    version: string,
    isPrivate: bool,
    scripts: map<Script, string>,
    dependencies: map<Package, string>,
    devDependencies: map<Package, string>,
    moduleType: Option<string>)

  /**
   * The manifest as tables: each package is declared when its condition holds,
   * at its pinned version, and each script when its condition holds.
   */
  function PackageManifest(o: ProjectOptions): (m: Manifest)
    ensures m.name == o.projectName && m.version == "0.1.0" && m.isPrivate
    ensures m.moduleType.Some? <==> o.framework != NextJs
    ensures m.moduleType.Some? ==> m.moduleType.value == "module"
  {
    Manifest(
      o.projectName, "0.1.0", true,
      map s | s in AllScripts && HasScript(o, s) :: ScriptCommand(o.framework, s),
      map p | p in AllPackages && RuntimeDependency(o, p) :: Version(p),
      map p | p in AllPackages && DevDependency(o, p) :: Version(p),
      if o.framework == NextJs then None else Some("module"))
  }

  /** Every declared package carries its pinned version. */
  ghost predicate Pinned(deps: map<Package, string>)
  {
    forall p :: p in deps ==> deps[p] == Version(p)
  }

  /**
   * `generatePackageJson`: fills the dependency maps section by section
   * (framework, CSS tool, TypeScript, lint, formatter) and then the scripts,
   * and adds the `type` key for everything but Next.js.
   */
  method GeneratePackageJson(o: ProjectOptions) returns (m: Manifest)
    ensures m == PackageManifest(o)
  {
    var dependencies, devDependencies := AddFrameworkPackages(o);
    devDependencies := AddCssPackages(o, devDependencies);
    devDependencies := AddTypeScriptPackages(o, devDependencies);
    devDependencies := AddLintPackages(o, devDependencies);
    devDependencies := AddFormatPackages(o, devDependencies);
    var scripts := AddScripts(o);
    m := Manifest(o.projectName, "0.1.0", true, scripts, dependencies, devDependencies,
                  if o.framework != NextJs then Some("module") else None);
    ScriptMap(o, scripts);
    RuntimeMap(o, dependencies);
    DevMap(o, devDependencies);
  }

  /** The framework section: the runtime packages, and the bundler with its plugin. */
  method AddFrameworkPackages(o: ProjectOptions) returns (dependencies: map<Package, string>, devDependencies: map<Package, string>)
    ensures forall p :: p in dependencies <==> RuntimeDependency(o, p)
    ensures forall p :: p in devDependencies <==> FrameworkTooling(o, p)
    ensures Pinned(dependencies) && Pinned(devDependencies)
  {
    dependencies := map[];
    devDependencies := map[];
    if o.framework == React {
      dependencies := dependencies[ReactRuntime := Version(ReactRuntime)];
      dependencies := dependencies[ReactDom := Version(ReactDom)];
      devDependencies := devDependencies[VitePluginReact := Version(VitePluginReact)];
      devDependencies := devDependencies[Vite := Version(Vite)];
    } else if o.framework == Vue {
      dependencies := dependencies[VueRuntime := Version(VueRuntime)];
      devDependencies := devDependencies[VitePluginVue := Version(VitePluginVue)];
      devDependencies := devDependencies[Vite := Version(Vite)];
    } else if o.framework == NextJs {
      dependencies := dependencies[NextRuntime := Version(NextRuntime)];
      dependencies := dependencies[ReactRuntime := Version(ReactRuntime)];
      dependencies := dependencies[ReactDom := Version(ReactDom)];
    } else if o.framework == Astro {
      dependencies := dependencies[AstroRuntime := Version(AstroRuntime)];
    }
  }

  /** The CSS tool section. */
  method AddCssPackages(o: ProjectOptions, devDependencies: map<Package, string>) returns (dev: map<Package, string>)
    requires Pinned(devDependencies)
    ensures forall p :: p in dev <==> p in devDependencies || CssTooling(o, p)
    ensures Pinned(dev)
  {
    dev := devDependencies;
    if o.cssTool == TailwindCss {
      dev := dev[Tailwindcss := Version(Tailwindcss)];
      dev := dev[Postcss := Version(Postcss)];
      dev := dev[Autoprefixer := Version(Autoprefixer)];
    } else if o.cssTool == Scss {
      dev := dev[Sass := Version(Sass)];
    }
  }

  /** The TypeScript section: the compiler, the Node types, and the framework's types. */
  method AddTypeScriptPackages(o: ProjectOptions, devDependencies: map<Package, string>) returns (dev: map<Package, string>)
    requires Pinned(devDependencies)
    ensures forall p :: p in dev <==> p in devDependencies || LanguageTooling(o, p)
    ensures Pinned(dev)
  {
    dev := devDependencies;
    if o.language == TypeScript {
      dev := dev[TypeScriptCompiler := Version(TypeScriptCompiler)];
      dev := dev[TypesNode := Version(TypesNode)];
      if o.framework == React {
        dev := dev[TypesReact := Version(TypesReact)];
        dev := dev[TypesReactDom := Version(TypesReactDom)];
      } else if o.framework == Vue {
        dev := dev[VolarPug := Version(VolarPug)];
      }
    }
  }

  /** The lint section: the linter, its TypeScript parser and plugin, and the framework's lint packages. */
  method AddLintPackages(o: ProjectOptions, devDependencies: map<Package, string>) returns (dev: map<Package, string>)
    requires Pinned(devDependencies)
    ensures forall p :: p in dev <==> p in devDependencies || LintTooling(o, p)
    ensures Pinned(dev)
  {
    dev := devDependencies;
    if o.eslint {
      dev := dev[Eslint := Version(Eslint)];
      if o.language == TypeScript {
        dev := dev[TsEslintPlugin := Version(TsEslintPlugin)];
        dev := dev[TsEslintParser := Version(TsEslintParser)];
      }
      if o.framework == React {
        dev := dev[EslintPluginReact := Version(EslintPluginReact)];
        dev := dev[EslintPluginReactHooks := Version(EslintPluginReactHooks)];
      } else if o.framework == Vue {
        dev := dev[EslintPluginVue := Version(EslintPluginVue)];
      } else if o.framework == NextJs {
        dev := dev[EslintConfigNext := Version(EslintConfigNext)];
      }
    }
  }

  /** The formatter section. */
  method AddFormatPackages(o: ProjectOptions, devDependencies: map<Package, string>) returns (dev: map<Package, string>)
    requires Pinned(devDependencies)
    ensures forall p :: p in dev <==> p in devDependencies || FormatTooling(o, p)
    ensures Pinned(dev)
  {
    dev := devDependencies;
    if o.prettier {
      dev := dev[Prettier := Version(Prettier)];
      if o.cssTool == TailwindCss {
        dev := dev[PrettierPluginTailwind := Version(PrettierPluginTailwind)];
      }
    }
  }

  /** The scripts: the framework's dev/build/start-or-preview trio, `lint` for Next.js, `format` with the formatter. */
  method AddScripts(o: ProjectOptions) returns (scripts: map<Script, string>)
    ensures forall s :: s in scripts <==> HasScript(o, s)
    ensures forall s :: s in scripts ==> scripts[s] == ScriptCommand(o.framework, s)
  {
    scripts := map[];
    if o.framework == NextJs {
      scripts := scripts[Dev := "next dev"];
      scripts := scripts[Build := "next build"];
      scripts := scripts[Start := "next start"];
      if o.eslint {
        scripts := scripts[Lint := "next lint"];
      }
    } else if o.framework == Astro {
      scripts := scripts[Dev := "astro dev"];
      scripts := scripts[Build := "astro build"];
      scripts := scripts[Start := "astro preview"];
    } else {
      scripts := scripts[Dev := "vite"];
      scripts := scripts[Build := "vite build"];
      scripts := scripts[Preview := "vite preview"];
    }
    if o.prettier {
      scripts := scripts[Format := FormatCommand];
    }
  }

  lemma ScriptMap(o: ProjectOptions, scripts: map<Script, string>)
    requires forall s :: s in scripts <==> HasScript(o, s)
    requires forall s :: s in scripts ==> scripts[s] == ScriptCommand(o.framework, s)
    ensures PackageManifest(o).scripts == scripts
  {
    var m := map s | s in AllScripts && HasScript(o, s) :: ScriptCommand(o.framework, s);
    forall s ensures s in m <==> s in scripts {
      AllScriptsComplete(s);
    }
    assert m == scripts;
  }

  lemma RuntimeMap(o: ProjectOptions, dependencies: map<Package, string>)
    requires forall p :: p in dependencies <==> RuntimeDependency(o, p)
    requires Pinned(dependencies)
    ensures PackageManifest(o).dependencies == dependencies
  {
    var m := map p | p in AllPackages && RuntimeDependency(o, p) :: Version(p);
    forall p ensures p in m <==> p in dependencies {
      AllPackagesComplete(p);
    }
    assert m == dependencies;
  }

  lemma DevMap(o: ProjectOptions, devDependencies: map<Package, string>)
    requires forall p :: p in devDependencies <==> DevDependency(o, p)
    requires Pinned(devDependencies)
    ensures PackageManifest(o).devDependencies == devDependencies
  {
    var m := map p | p in AllPackages && DevDependency(o, p) :: Version(p);
    forall p ensures p in m <==> p in devDependencies {
      AllPackagesComplete(p);
    }
    assert m.Keys == devDependencies.Keys;
    assert forall p :: p in m ==> m[p] == devDependencies[p];
    assert m == devDependencies;
  }

  /** A package is listed in the manifest exactly when its table says so, at its pinned version. */
  lemma ManifestDeclares(o: ProjectOptions, p: Package)
    ensures var m := PackageManifest(o);
            (p in m.dependencies <==> RuntimeDependency(o, p))
            && (p in m.devDependencies <==> DevDependency(o, p))
            && (p in m.dependencies ==> m.dependencies[p] == Version(p))
            && (p in m.devDependencies ==> m.devDependencies[p] == Version(p))
  {
    AllPackagesComplete(p);
  }

  /**
   * The dependency rules: `vite` exactly for the bundler frameworks,
   * `typescript` exactly under TypeScript, `eslint` exactly with linting,
   * `sass` exactly for SCSS, and the Tailwind formatter plugin exactly with
   * both the formatter and Tailwind; no package is both a runtime and a
   * development dependency.
   */
  lemma ManifestDependencyRules(o: ProjectOptions)
    ensures var dev := PackageManifest(o).devDependencies;
            && (Vite in dev <==> o.framework == React || o.framework == Vue)
            && (TypeScriptCompiler in dev <==> o.language == TypeScript)
            && (Eslint in dev <==> o.eslint)
            && (Sass in dev <==> o.cssTool == Scss)
            && (PrettierPluginTailwind in dev <==> o.prettier && o.cssTool == TailwindCss)
    ensures PackageManifest(o).dependencies.Keys !! PackageManifest(o).devDependencies.Keys
  {
    ManifestDeclares(o, Vite);
    ManifestDeclares(o, TypeScriptCompiler);
    ManifestDeclares(o, Eslint);
    ManifestDeclares(o, Sass);
    ManifestDeclares(o, PrettierPluginTailwind);
    forall p | p in PackageManifest(o).dependencies ensures p !in PackageManifest(o).devDependencies {
      ManifestDeclares(o, p);
    }
  }

  /**
   * The scripts: `dev` and `build` always; `start` for Next.js and Astro,
   * `preview` for the bundler frameworks, `lint` for Next.js with linting and
   * `format` exactly with the formatter.
   */
  lemma ManifestScriptRules(o: ProjectOptions)
    ensures var scripts := PackageManifest(o).scripts;
            && Dev in scripts && Build in scripts
            && (Start in scripts <==> o.framework == NextJs || o.framework == Astro)
            && (Preview in scripts <==> o.framework == React || o.framework == Vue)
            && (Lint in scripts <==> o.framework == NextJs && o.eslint)
            && (Format in scripts <==> o.prettier)
  {
    var scripts := PackageManifest(o).scripts;
    assert Dev in AllScripts && Build in AllScripts && Start in AllScripts;
    assert Preview in AllScripts && Lint in AllScripts && Format in AllScripts;
  }

  // ---------------------------------------------------------------------------
  // The TypeScript compiler config

  /** `compilerOptions`; a key the shape does not set is `None`, boolean keys set to true are listed in `enabled`. */
  datatype CompilerOptions = CompilerOptions(
    target: Option<string>,
    moduleKind: Option<string>,
    lib: seq<string>,
    jsx: Option<string>,
    jsxImportSource: Option<string>,
    moduleResolution: Option<string>,
    enabled: seq<string>,
    plugins: seq<string>,
    paths: map<string, seq<string>>)

  /** The three shapes of `tsconfig.json`. */
  datatype TsConfig =
    | NextTsConfig(compilerOptions: CompilerOptions, includes: seq<string>, excludes: seq<string>)
    | AstroTsConfig(preset: string, compilerOptions: CompilerOptions)
    | BundlerTsConfig(compilerOptions: CompilerOptions, includes: seq<string>, excludes: seq<string>)

  const PathAlias := "@/*"

  /**
   * `generateTsConfig`: nothing for a JavaScript project; otherwise the
   * Next.js shape with its `src` path alias, the Astro shape extending the strict
   * preset, or the bundler shape whose `jsx` key is set only for React.
   */
  function GenerateTsConfig(o: ProjectOptions): (r: Option<TsConfig>)
    ensures r.None? <==> o.language != TypeScript
    ensures r.Some? ==> (r.value.NextTsConfig? <==> o.framework == NextJs)
                        && (r.value.AstroTsConfig? <==> o.framework == Astro)
                        && (r.value.BundlerTsConfig? <==> o.framework == React || o.framework == Vue)
    ensures r.Some? && r.value.NextTsConfig? ==>
              PathAlias in r.value.compilerOptions.paths && r.value.compilerOptions.paths[PathAlias] == ["./src/*"]
    ensures r.Some? && r.value.AstroTsConfig? ==> r.value.preset == "astro/tsconfigs/strict"
    ensures r.Some? && r.value.BundlerTsConfig? ==>
              (r.value.compilerOptions.jsx.Some? <==> o.framework == React)
              && r.value.compilerOptions.paths == map[] && r.value.includes == ["src"]
  {
    if o.language != TypeScript then None
    else if o.framework == NextJs then
      Some(NextTsConfig(
        CompilerOptions(
          Some("ES2017"), Some("esnext"), ["dom", "dom.iterable", "esnext"], Some("preserve"), None, Some("bundler"),
          ["allowJs", "skipLibCheck", "strict", "noEmit", "esModuleInterop", "resolveJsonModule", "isolatedModules", "incremental"],
          ["next"], map[PathAlias := ["./src/*"]]),
        ["next-env.d.ts", "**/*.ts", "**/*.tsx", ".next/types/**/*.ts"], ["node_modules"]))
    else if o.framework == Astro then
      Some(AstroTsConfig(
        "astro/tsconfigs/strict",
        CompilerOptions(None, None, [], Some("react-jsx"), Some("react"), None, [], [], map[])))
    else
      Some(BundlerTsConfig(
        CompilerOptions(
          Some("ES2020"), Some("ESNext"), ["ES2020", "DOM", "DOM.Iterable"],
          if o.framework == React then Some("react-jsx") else None, None, Some("bundler"),
          ["resolveJsonModule", "allowJs", "strict", "noEmit", "esModuleInterop", "skipLibCheck",
           "forceConsistentCasingInFileNames", "isolatedModules"],
          [], map[]),
        ["src"], ["node_modules"]))
  }

  // ---------------------------------------------------------------------------
  // Text config files

  datatype ConfigFile = ConfigFile(filename: string, content: string)

  const NextConfigText := "/** @type {import('next').NextConfig} */\nconst nextConfig = {\n"
    + "  // Add your Next.js config here\n}\n\nmodule.exports = nextConfig\n"

  const AstroReactImport := "import react from '@astrojs/react';"
  const AstroReactIntegration := "integrations: [react()],"

  const AstroConfigHead := "import { defineConfig } " + "from 'astro/config';\n"
  const AstroConfigMiddle := "\n\nexport default " + "defineConfig({\n  "
  const AstroConfigTail := "\n});\n"

  /** The Astro config around its two conditional React pieces. */
  function AstroConfigText(withReact: bool): string
  {
    AstroConfigHead + (if withReact then AstroReactImport else "")
    + AstroConfigMiddle + (if withReact then AstroReactIntegration else "") + AstroConfigTail
  }

  /** The Vite plugin of a bundler framework: `react` for React, `vue` for every other. */
  function VitePlugin(f: Framework): (name: string)
    ensures name == "react" <==> f == React
  {
    if f == React then "react" else "vue"
  }

  function ViteImportLine(plugin: string): string
  {
    "import " + plugin + " from '@vitejs/plugin-" + plugin + "';"
  }

  function ViteConfigText(plugin: string): string
  {
    "import { defineConfig } from 'vite';\n" + ViteImportLine(plugin)
    + "\n\nexport default defineConfig({\n  plugins: [" + plugin + "()],\n});\n"
  }

  /**
   * `generateFrameworkConfig`: `next.config.*` for Next.js, `astro.config.mjs`
   * for Astro (whose React pieces are guarded by a test for React that cannot
   * hold in that branch), and `vite.config.*` loading the framework's plugin
   * otherwise.
   */
  function GenerateFrameworkConfig(o: ProjectOptions): (r: Option<ConfigFile>)
    ensures r.Some?
  {
    var ext := ScriptExt(o.language);
    if o.framework == NextJs then
      Some(ConfigFile("next.config." + ext, NextConfigText))
    else if o.framework == Astro then
      Some(ConfigFile("astro.config.mjs", AstroConfigText(o.framework == React)))
    else
      Some(ConfigFile("vite.config." + ext, ViteConfigText(VitePlugin(o.framework))))
  }

  lemma AstroTextLacksBracket()
    ensures '[' !in AstroConfigText(false)
  {
    assert '[' !in AstroConfigHead && '[' !in AstroConfigMiddle && '[' !in AstroConfigTail;
  }

  lemma AstroTextLacksAt()
    ensures '@' !in AstroConfigText(false)
  {
    assert '@' !in AstroConfigHead && '@' !in AstroConfigMiddle && '@' !in AstroConfigTail;
  }

  /** The Astro config never carries the React import or integration: its guard is dead. */
  lemma AstroConfigHasNoReact(o: ProjectOptions)
    requires o.framework == Astro
    ensures var config := GenerateFrameworkConfig(o).value;
            config.filename == "astro.config.mjs"
            && !Contains(config.content, AstroReactIntegration) && !Contains(config.content, AstroReactImport)
  {
    var content := GenerateFrameworkConfig(o).value.content;
    assert content == AstroConfigText(false);
    AstroTextLacksBracket();
    AstroTextLacksAt();
    assert AstroReactIntegration[14] == '[';
    if Contains(content, AstroReactIntegration) {
      ContainsElement(content, AstroReactIntegration, '[');
    }
    assert AstroReactImport[19] == '@';
    if Contains(content, AstroReactImport) {
      ContainsElement(content, AstroReactImport, '@');
    }
  }

  /**
   * The bundler frameworks get `vite.config.ts` or `vite.config.js`, which
   * imports `@vitejs/plugin-react` under React and `@vitejs/plugin-vue` under
   * Vue, and the manifest declares that plugin package.
   */
  lemma ViteConfigLoadsDeclaredPlugin(o: ProjectOptions)
    requires o.framework == React || o.framework == Vue
    ensures var config := GenerateFrameworkConfig(o).value;
            var plugin := VitePlugin(o.framework);
            var pkg := if o.framework == React then VitePluginReact else VitePluginVue;
            config.filename == "vite.config." + ScriptExt(o.language)
            && Contains(config.content, ViteImportLine(plugin))
            && PackageName(pkg) == "@vitejs/plugin-" + plugin
            && pkg in PackageManifest(o).devDependencies
  {
    var plugin := VitePlugin(o.framework);
    var pkg := if o.framework == React then VitePluginReact else VitePluginVue;
    var head := "import { defineConfig } from 'vite';\n";
    ContainsRight(head, ViteImportLine(plugin));
    ContainsExtend(head + ViteImportLine(plugin), ViteImportLine(plugin),
                   "\n\nexport default defineConfig({\n  plugins: [" + plugin + "()],\n});\n");
    assert ViteConfigText(plugin) == head + ViteImportLine(plugin)
                                     + ("\n\nexport default defineConfig({\n  plugins: [" + plugin + "()],\n});\n");
    ManifestDeclares(o, pkg);
  }

  /** Next.js gets `next.config.ts` or `next.config.js`. */
  lemma NextConfigName(o: ProjectOptions)
    requires o.framework == NextJs
    ensures GenerateFrameworkConfig(o).value == ConfigFile("next.config." + ScriptExt(o.language), NextConfigText)
  {
  }

  const TailwindConfigText := "/** @type {import('tailwindcss').Config} */\nexport default {\n"
    + "  content: [\n    \"./index.html\",\n    \"./src/**/*.{js,ts,jsx,tsx}\",\n  ],\n"
    + "  theme: {\n    extend: {},\n  },\n  plugins: [],\n}\n"

  const PostcssHead := "export default {\n  plugins: {\n    "
  const PostcssTailwind := "tailwindcss: {},"
  const PostcssAutoprefixer := "autoprefixer: {},"
  const PostcssConfigText := PostcssHead + PostcssTailwind + "\n    " + PostcssAutoprefixer + "\n  },\n}\n"

  /** The CSS tool's config files: the Tailwind and PostCSS configs, in that order, and nothing else. */
  function CssConfigFiles(o: ProjectOptions): (files: seq<ConfigFile>)
    ensures files == [] <==> o.cssTool != TailwindCss
    ensures files != [] ==> |files| == 2 && files[0].filename == "tailwind.config.js"
                            && files[1].filename == "postcss.config.js"
  {
    if o.cssTool == TailwindCss then
      [ConfigFile("tailwind.config.js", TailwindConfigText), ConfigFile("postcss.config.js", PostcssConfigText)]
    else
      []
  }

  /** `generateCssConfig`: pushes the two Tailwind configs onto an empty list. */
  method GenerateCssConfig(o: ProjectOptions) returns (configs: seq<ConfigFile>)
    ensures configs == CssConfigFiles(o)
  {
    configs := [];
    if o.cssTool == TailwindCss {
      configs := configs + [ConfigFile("tailwind.config.js", TailwindConfigText)];
      configs := configs + [ConfigFile("postcss.config.js", PostcssConfigText)];
    }
  }

  /**
   * The PostCSS config loads the `tailwindcss` and `autoprefixer` plugins,
   * and a Tailwind manifest declares both of them and `postcss`.
   */
  lemma TailwindToolchainDeclared(o: ProjectOptions)
    requires o.cssTool == TailwindCss
    ensures Contains(CssConfigFiles(o)[1].content, PostcssTailwind)
    ensures Contains(CssConfigFiles(o)[1].content, PostcssAutoprefixer)
    ensures var dev := PackageManifest(o).devDependencies;
            Tailwindcss in dev && Postcss in dev && Autoprefixer in dev
  {
    var s1 := PostcssHead + PostcssTailwind;
    var s2 := s1 + "\n    " + PostcssAutoprefixer;
    assert PostcssConfigText == s2 + "\n  },\n}\n";
    ContainsRight(PostcssHead, PostcssTailwind);
    ContainsExtend(s1, PostcssTailwind, "\n    ");
    ContainsExtend(s1 + "\n    ", PostcssTailwind, PostcssAutoprefixer);
    ContainsExtend(s2, PostcssTailwind, "\n  },\n}\n");
    ContainsRight(s1 + "\n    ", PostcssAutoprefixer);
    ContainsExtend(s2, PostcssAutoprefixer, "\n  },\n}\n");
    ManifestDeclares(o, Tailwindcss);
    ManifestDeclares(o, Postcss);
    ManifestDeclares(o, Autoprefixer);
  }

  // ---------------------------------------------------------------------------
  // The lint config

  /**
   * `.eslintrc.json`: Next.js gets only its preset; every other framework the
   * standard object, whose `parser` key is `None` when absent and whose
   * `settings.react.version` is `reactVersion`.
   */
  datatype EslintConfig =
    | NextEslintConfig(preset: string)
    | StandardEslintConfig(
        env: seq<string>,
        presets: seq<string>,
        parser: Option<string>,
        ecmaVersion: string,
        sourceType: string,
        jsx: bool,
        plugins: seq<string>,
        rules: map<string, string>,
        reactVersion: Option<string>)

  datatype LintFile = LintFile(filename: string, config: EslintConfig)

  const TsLintPreset := "plugin:@typescript-eslint/recommended"
  const TsLintPlugin := "@typescript-eslint"

  function LanguagePresets(l: Language): seq<string>
  {
    if l == TypeScript then [TsLintPreset] else []
  }

  function LanguagePlugins(l: Language): seq<string>
  {
    if l == TypeScript then [TsLintPlugin] else []
  }

  function FrameworkPresets(f: Framework): seq<string>
  {
    if f == React then ["plugin:react/recommended", "plugin:react-hooks/recommended"]
    else if f == Vue then ["plugin:vue/vue3-recommended"]
    else []
  }

  function FrameworkPlugins(f: Framework): seq<string>
  {
    if f == React then ["react", "react-hooks"] else if f == Vue then ["vue"] else []
  }

  /**
   * The lint config as the language's entries followed by the framework's:
   * nothing without linting, the Next.js preset for Next.js, and otherwise a
   * parser exactly under TypeScript and React settings exactly under React.
   */
  function EslintFile(o: ProjectOptions): (r: Option<LintFile>)
    ensures r.None? <==> !o.eslint
    ensures r.Some? ==> r.value.filename == ".eslintrc.json"
    ensures r.Some? ==> (r.value.config.NextEslintConfig? <==> o.framework == NextJs)
    ensures r.Some? && o.framework == NextJs ==> r.value.config == NextEslintConfig("next/core-web-vitals")
    ensures r.Some? && r.value.config.StandardEslintConfig? ==>
              var c := r.value.config;
              && (c.parser.Some? <==> o.language == TypeScript)
              && (c.reactVersion.Some? <==> o.framework == React)
              && (c.jsx <==> o.framework == React || o.framework == Vue)
              && (o.language == TypeScript ==> [TsLintPreset] <= c.presets && [TsLintPlugin] <= c.plugins)
              && (o.language != TypeScript ==> TsLintPreset !in c.presets && TsLintPlugin !in c.plugins)
              && ("plugin:react/recommended" in c.presets <==> o.framework == React)
              && ("plugin:react-hooks/recommended" in c.presets <==> o.framework == React)
              && ("plugin:vue/vue3-recommended" in c.presets <==> o.framework == Vue)
              && ("react" in c.plugins <==> o.framework == React)
              && ("react-hooks" in c.plugins <==> o.framework == React)
              && ("vue" in c.plugins <==> o.framework == Vue)
  {
    if !o.eslint then None
    else if o.framework == NextJs then Some(LintFile(".eslintrc.json", NextEslintConfig("next/core-web-vitals")))
    else
      Some(LintFile(".eslintrc.json", StandardEslintConfig(
        ["browser", "es2021", "node"],
        LanguagePresets(o.language) + FrameworkPresets(o.framework),
        if o.language == TypeScript then Some(PackageName(TsEslintParser)) else None,
        "latest", "module", o.framework == React || o.framework == Vue,
        LanguagePlugins(o.language) + FrameworkPlugins(o.framework),
        map[],
        if o.framework == React then Some("detect") else None)))
  }

  /**
   * `generateEslintConfig`: starts from empty `extends` and `plugins` lists
   * and pushes the TypeScript entries and then the framework's.
   */
  method GenerateEslintConfig(o: ProjectOptions) returns (r: Option<LintFile>)
    ensures r == EslintFile(o)
  {
    if !o.eslint {
      return None;
    }
    if o.framework == NextJs {
      return Some(LintFile(".eslintrc.json", NextEslintConfig("next/core-web-vitals")));
    }
    var presets: seq<string> := [];
    var plugins: seq<string> := [];
    // An absent parser is the deleted `parser` key.
    var parser := if o.language == TypeScript then Some(PackageName(TsEslintParser)) else None;
    var reactVersion: Option<string> := None;
    if o.language == TypeScript {
      presets := presets + [TsLintPreset];
      plugins := plugins + [TsLintPlugin];
    }
    if o.framework == React {
      presets := presets + ["plugin:react/recommended", "plugin:react-hooks/recommended"];
      plugins := plugins + ["react", "react-hooks"];
      reactVersion := Some("detect");
    } else if o.framework == Vue {
      presets := presets + ["plugin:vue/vue3-recommended"];
      plugins := plugins + ["vue"];
    }
    assert presets == LanguagePresets(o.language) + FrameworkPresets(o.framework);
    assert plugins == LanguagePlugins(o.language) + FrameworkPlugins(o.framework);
    r := Some(LintFile(".eslintrc.json", StandardEslintConfig(
      ["browser", "es2021", "node"], presets, parser, "latest", "module",
      o.framework == React || o.framework == Vue, plugins, map[], reactVersion)));
  }

  /** The package ESLint loads for a plugin name. */
  function LintPluginPackage(plugin: string): Option<Package>
  {
    if plugin == TsLintPlugin then Some(TsEslintPlugin)
    else if plugin == "react" then Some(EslintPluginReact)
    else if plugin == "react-hooks" then Some(EslintPluginReactHooks)
    else if plugin == "vue" then Some(EslintPluginVue)
    else None
  }

  /**
   * Every plugin and the parser the lint config names is a package the
   * manifest declares, and the Next.js preset comes with `eslint-config-next`.
   */
  lemma LintPackagesDeclared(o: ProjectOptions)
    requires o.eslint
    ensures var c := EslintFile(o).value.config;
            var dev := PackageManifest(o).devDependencies;
            && (c.NextEslintConfig? ==> EslintConfigNext in dev)
            && (c.StandardEslintConfig? ==>
                  (forall k :: 0 <= k < |c.plugins| ==>
                     LintPluginPackage(c.plugins[k]).Some? && LintPluginPackage(c.plugins[k]).value in dev)
                  && (c.parser.Some? ==> c.parser.value == PackageName(TsEslintParser) && TsEslintParser in dev))
  {
    var c := EslintFile(o).value.config;
    ManifestDeclares(o, EslintConfigNext);
    ManifestDeclares(o, TsEslintParser);
    if c.StandardEslintConfig? {
      var lang, fw := LanguagePlugins(o.language), FrameworkPlugins(o.framework);
      assert c.plugins == lang + fw;
      LanguagePluginsDeclared(o);
      FrameworkPluginsDeclared(o);
      forall k | 0 <= k < |c.plugins|
        ensures LintPluginPackage(c.plugins[k]).Some? && LintPluginPackage(c.plugins[k]).value in PackageManifest(o).devDependencies
      {
        if k >= |lang| {
          assert c.plugins[k] == fw[k - |lang|];
        }
      }
    }
  }

  lemma LanguagePluginsDeclared(o: ProjectOptions)
    requires o.eslint
    ensures var plugins := LanguagePlugins(o.language);
            forall k :: 0 <= k < |plugins| ==>
              LintPluginPackage(plugins[k]).Some? && LintPluginPackage(plugins[k]).value in PackageManifest(o).devDependencies
  {
    ManifestDeclares(o, TsEslintPlugin);
  }

  lemma FrameworkPluginsDeclared(o: ProjectOptions)
    requires o.eslint
    ensures var plugins := FrameworkPlugins(o.framework);
            forall k :: 0 <= k < |plugins| ==>
              LintPluginPackage(plugins[k]).Some? && LintPluginPackage(plugins[k]).value in PackageManifest(o).devDependencies
  {
    ManifestDeclares(o, EslintPluginReact);
    ManifestDeclares(o, EslintPluginReactHooks);
    ManifestDeclares(o, EslintPluginVue);
    assert TsLintPlugin[0] == '@';
    if o.framework == React {
      assert LintPluginPackage("react") == Some(EslintPluginReact);
      assert LintPluginPackage("react-hooks") == Some(EslintPluginReactHooks);
    } else if o.framework == Vue {
      assert LintPluginPackage("vue") == Some(EslintPluginVue);
    }
  }

  // ---------------------------------------------------------------------------
  // The formatter config

  datatype PrettierConfig = PrettierConfig(
    semi: bool,
    singleQuote: bool,
    tabWidth: nat,
    trailingComma: string,
    printWidth: nat,
    plugins: Option<seq<string>>)

  datatype FormatFile = FormatFile(filename: string, config: PrettierConfig)

  /**
   * `generatePrettierConfig`: nothing without the formatter; otherwise the
   * five fixed style rules, with the Tailwind class-sorting plugin exactly
   * when Tailwind was chosen.
   */
  function GeneratePrettierConfig(o: ProjectOptions): (r: Option<FormatFile>)
    ensures r.None? <==> !o.prettier
    ensures r.Some? ==>
              var c := r.value.config;
              r.value.filename == ".prettierrc"
              && c.semi && c.singleQuote && c.tabWidth == 2 && c.trailingComma == "es5" && c.printWidth == 80
              && (c.plugins.Some? <==> o.cssTool == TailwindCss)
  {
    if !o.prettier then None
    else
      var config := PrettierConfig(true, true, 2, "es5", 80, None);
      Some(FormatFile(".prettierrc",
        if o.cssTool == TailwindCss then config.(plugins := Some([PackageName(PrettierPluginTailwind)])) else config))
  }

  /** The formatter plugin the config loads is a package the manifest declares. */
  lemma FormatPluginDeclared(o: ProjectOptions)
    requires o.prettier && o.cssTool == TailwindCss
    ensures var plugins := GeneratePrettierConfig(o).value.config.plugins;
            plugins == Some([PackageName(PrettierPluginTailwind)])
            && PrettierPluginTailwind in PackageManifest(o).devDependencies
            && Prettier in PackageManifest(o).devDependencies
  {
    ManifestDeclares(o, PrettierPluginTailwind);
    ManifestDeclares(o, Prettier);
  }
}
