/** The client bootstrap module (`src/main.*`) and the Vite type-declaration file. */
module Entry {
  import opened Common
  import opened Options

  const ReactAppImport := "import App from './App';"
  const ReactRootRender := "ReactDOM.createRoot(document.getElementById('root')!).render("
  const VueAppImport := "import App from './App.vue';"
  const VueRootMount := "createApp(App).mount('#root');"

  /**
   * The stylesheet import line of the bootstrap module: SCSS imports
   * `index.scss`, Tailwind and plain CSS share `index.css`.
   */
  function GetCssImport(t: CssTool): (line: string)
    ensures line == "import './index.scss';" <==> t == Scss
    ensures line == "import './index.css';" <==> t != Scss
  {
    if t == TailwindCss then "import './index.css';"
    else if t == Scss then "import './index.scss';"
    else "import './index.css';"
  }

  /**
   * The bootstrap module: empty for the frameworks that bring their own entry
   * points, a React root render or a Vue mount otherwise.
   */
  function GenerateMainFile(o: ProjectOptions): (text: string)
    ensures text == "" <==> o.framework == NextJs || o.framework == Astro
  {
    match o.framework
    case NextJs => ""
    case Astro => ""
    case React =>
      ReactHead + ReactAppImport + "\n" + GetCssImport(o.cssTool) + "\n\n"
      + ReactRootRender + ReactTail
    case Vue =>
      VueHead + VueAppImport + "\n" + GetCssImport(o.cssTool) + "\n\n"
      + VueRootMount + "\n"
  }

  const ReactHead := "import React from 'react';\nimport ReactDOM from 'react-dom/client';\n"
  const ReactTail := "\n  <React.StrictMode>\n    <App />\n  </React.StrictMode>,\n);\n"
  const VueHead := "import { createApp } from 'vue';\n"

  /** The React bootstrap imports `./App` and the stylesheet and renders into `#root`. */
  lemma ReactMainFileImports(o: ProjectOptions)
    requires o.framework == React
    ensures Contains(GenerateMainFile(o), ReactAppImport)
    ensures Contains(GenerateMainFile(o), GetCssImport(o.cssTool))
    ensures Contains(GenerateMainFile(o), ReactRootRender)
  {
    var css := GetCssImport(o.cssTool);
    var s1 := ReactHead + ReactAppImport;
    var s2 := s1 + "\n" + css;
    var s3 := s2 + "\n\n" + ReactRootRender;
    assert GenerateMainFile(o) == s3 + ReactTail;
    ContainsRight(ReactHead, ReactAppImport);
    ContainsExtend(s1, ReactAppImport, "\n");
    ContainsExtend(s1 + "\n", ReactAppImport, css);
    ContainsExtend(s2, ReactAppImport, "\n\n");
    ContainsExtend(s2 + "\n\n", ReactAppImport, ReactRootRender);
    ContainsExtend(s3, ReactAppImport, ReactTail);
    ContainsRight(s1 + "\n", css);
    ContainsExtend(s2, css, "\n\n");
    ContainsExtend(s2 + "\n\n", css, ReactRootRender);
    ContainsExtend(s3, css, ReactTail);
    ContainsRight(s2 + "\n\n", ReactRootRender);
    ContainsExtend(s3, ReactRootRender, ReactTail);
  }

  /** The Vue bootstrap imports `./App.vue` and the stylesheet and mounts on `#root`. */
  lemma VueMainFileImports(o: ProjectOptions)
    requires o.framework == Vue
    ensures Contains(GenerateMainFile(o), VueAppImport)
    ensures Contains(GenerateMainFile(o), GetCssImport(o.cssTool))
    ensures Contains(GenerateMainFile(o), VueRootMount)
  {
    var css := GetCssImport(o.cssTool);
    var s1 := VueHead + VueAppImport;
    var s2 := s1 + "\n" + css;
    var s3 := s2 + "\n\n" + VueRootMount;
    assert GenerateMainFile(o) == s3 + "\n";
    ContainsRight(VueHead, VueAppImport);
    ContainsExtend(s1, VueAppImport, "\n");
    ContainsExtend(s1 + "\n", VueAppImport, css);
    ContainsExtend(s2, VueAppImport, "\n\n");
    ContainsExtend(s2 + "\n\n", VueAppImport, VueRootMount);
    ContainsExtend(s3, VueAppImport, "\n");
    ContainsRight(s1 + "\n", css);
    ContainsExtend(s2, css, "\n\n");
    ContainsExtend(s2 + "\n\n", css, VueRootMount);
    ContainsExtend(s3, css, "\n");
    ContainsRight(s2 + "\n\n", VueRootMount);
    ContainsExtend(s3, VueRootMount, "\n");
  }

  /** The Vite client type reference: present exactly under TypeScript. */
  function GenerateViteEnvFile(o: ProjectOptions): (text: string)
    ensures text != "" <==> o.language == TypeScript
  {
    match o.language
    case TypeScript => "/// <reference types=\"vite/client\" />\n"
    case JavaScript => ""
  }
}
