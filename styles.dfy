/** The stylesheet text written for the chosen CSS tool. */
module Styles {
  import opened Options

  /** The three Tailwind layer directives every Tailwind stylesheet starts with. */
  const TailwindDirectives := "@tailwind base;\n" + "@tailwind components;\n" + "@tailwind utilities;\n"

  const TailwindStylesheet := TailwindDirectives
    + "\n:root {\n  font-family: Inter, system-ui, Avenir, Helvetica, Arial, sans-serif;\n}\n"
    + "\nbody {\n  margin: 0;\n  min-height: 100vh;\n}\n"

  const ResetRule := "* {\n  margin: 0;\n" + "  padding: 0;\n  box-sizing: border-box;\n}\n"
  const BodyRule := "\nbody {\n  font-family: Inter, system-ui, Avenir, Helvetica, Arial, sans-serif;\n  min-height: 100vh;\n}\n"
  const ContainerRule := "\n.container {\n  padding: 2rem;\n  text-align: center;\n}\n"

  /** The reset stylesheet of the SCSS branch. */
  const ScssStylesheet := ResetRule + BodyRule + ContainerRule

  /** The reset stylesheet of the CSS branch, a second copy of the same rules in the source. */
  const CssStylesheet := ResetRule + BodyRule + ContainerRule

  /**
   * Tailwind gets its directives, SCSS its reset, and everything else falls to
   * the CSS reset: every stylesheet is non-empty, and it opens with the Tailwind
   * directives exactly when Tailwind was chosen.
   */
  function GenerateCssFile(o: ProjectOptions): (text: string)
    ensures |text| > 0
    ensures TailwindDirectives <= text <==> o.cssTool == TailwindCss
  {
    if o.cssTool == TailwindCss then TailwindStylesheet
    else
      assert ResetRule[0] == '*' && TailwindDirectives[0] == '@';
      if o.cssTool == Scss then ScssStylesheet else CssStylesheet
  }

  /** The SCSS and the CSS branch produce the same text; only the file extension differs. */
  lemma ScssAndCssAgree(o: ProjectOptions)
    ensures GenerateCssFile(o.(cssTool := Scss)) == GenerateCssFile(o.(cssTool := PlainCss))
  {
  }
}
