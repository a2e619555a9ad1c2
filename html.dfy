/** The static `index.html` shell of the bundler-based frameworks. */
module Html {
  import opened Common
  import opened Options

  const RootDiv := "<div id=\"root\"></div>"

  /** The bootstrap script the page loads: `/src/main.tsx` or `/src/main.jsx`, by language only. */
  function ScriptSrc(l: Language): string
  {
    "/src/main." + ComponentExt(l)
  }

  function ScriptTag(l: Language): string
  {
    "<script type=\"module\" src=\"" + ScriptSrc(l) + "\"></script>"
  }

  function TitleTag(name: string): string
  {
    "<title>" + name + "</title>"
  }

  const HtmlHead := "<!DOCTYPE html>\n<html lang=\"en\">\n  <head>\n    <meta charset=\"UTF-8\" />\n"
    + "    <link rel=\"icon\" type=\"image/svg+xml\" href=\"/vite.svg\" />\n"
    + "    <meta name=\"viewport\" content=\"width=device-width, initial-scale=1.0\" />\n    "

  const BodyOpen := "\n  </head>\n  <body>\n    "
  const HtmlTail := "\n  </body>\n</html>\n"

  /** The page: empty for Next.js and Astro, otherwise a shell with a title, a root div and the script. */
  function GenerateIndexHtml(o: ProjectOptions): (html: string)
    ensures html == "" <==> o.framework == NextJs || o.framework == Astro
  {
    match o.framework
    case NextJs => ""
    case Astro => ""
    case _ =>
      HtmlHead + TitleTag(o.projectName) + BodyOpen + RootDiv + "\n    "
      + ScriptTag(o.language) + HtmlTail
  }

  /**
   * A React or Vue page carries the project name verbatim in its title, the
   * root element and the script tag for the language's bootstrap file.
   */
  lemma IndexHtmlContents(o: ProjectOptions)
    requires o.framework == React || o.framework == Vue
    ensures Contains(GenerateIndexHtml(o), TitleTag(o.projectName))
    ensures Contains(GenerateIndexHtml(o), RootDiv)
    ensures Contains(GenerateIndexHtml(o), ScriptTag(o.language))
  {
    var title := TitleTag(o.projectName);
    var script := ScriptTag(o.language);
    var s1 := HtmlHead + title;
    var s2 := s1 + BodyOpen + RootDiv;
    var s3 := s2 + "\n    " + script;
    assert GenerateIndexHtml(o) == s3 + HtmlTail;
    ContainsRight(HtmlHead, title);
    ContainsExtend(s1, title, BodyOpen);
    ContainsExtend(s1 + BodyOpen, title, RootDiv);
    ContainsExtend(s2, title, "\n    ");
    ContainsExtend(s2 + "\n    ", title, script);
    ContainsExtend(s3, title, HtmlTail);
    ContainsRight(s1 + BodyOpen, RootDiv);
    ContainsExtend(s2, RootDiv, "\n    ");
    ContainsExtend(s2 + "\n    ", RootDiv, script);
    ContainsExtend(s3, RootDiv, HtmlTail);
    ContainsRight(s2 + "\n    ", script);
    ContainsExtend(s3, script, HtmlTail);
  }

  /** React and Vue get the same page: the script name follows the language, not the framework. */
  lemma IndexHtmlIgnoresFramework(o: ProjectOptions)
    requires o.framework == Vue
    ensures GenerateIndexHtml(o) == GenerateIndexHtml(o.(framework := React))
  {
  }
}
