/**
 * The configuration record every generator reads (`ProjectOptions`), the
 * validator the name prompt applies to a typed project name, and the rule by
 * which a project name given on the command line takes the place of the
 * prompted one.  The interactive prompting itself is not modelled; its answers
 * arrive as an `Answers` value.
 */
module Options {
  import opened Common

  datatype PackageManager = Npm | Yarn | Pnpm | Bun

  datatype Framework = React | Vue | NextJs | Astro

  datatype CssTool = TailwindCss | Scss | PlainCss

  datatype Language = TypeScript | JavaScript

  datatype ProjectOptions = ProjectOptions(
    projectName: string,
    packageManager: PackageManager,
    framework: Framework,
    cssTool: CssTool,
    language: Language,
    eslint: bool,
    prettier: bool)

  /** The literal each choice has in the prompt's choice list. */
  function PackageManagerName(pm: PackageManager): string
  {
    match pm
    case Npm => "npm"
    case Yarn => "yarn"
    case Pnpm => "pnpm"
    case Bun => "bun"
  }

  function FrameworkName(f: Framework): string
  {
    match f
    case React => "React"
    case Vue => "Vue"
    case NextJs => "Next.js"
    case Astro => "Astro"
  }

  function CssToolName(t: CssTool): string
  {
    match t
    case TailwindCss => "Tailwind CSS"
    case Scss => "SCSS"
    case PlainCss => "CSS"
  }

  function LanguageName(l: Language): string
  {
    match l
    case TypeScript => "TypeScript"
    case JavaScript => "JavaScript"
  }

  /** The extension of files that may hold JSX: `tsx` under TypeScript, else `jsx`. */
  function ComponentExt(l: Language): string
  {
    if l == TypeScript then "tsx" else "jsx"
  }

  /** The extension of plain script modules: `ts` under TypeScript, else `js`. */
  function ScriptExt(l: Language): string
  {
    if l == TypeScript then "ts" else "js"
  }

  // ---------------------------------------------------------------------------
  // The project-name validator

  /**
   * The characters JavaScript's `String.prototype.trim` removes: the
   * WhiteSpace code points (tab, vertical tab, form feed, space, no-break
   * space, byte order mark and the other space separators) and the line
   * terminators.
   */
  predicate IsJsWhitespace(c: char)
  {
    || c == '\t' || c == '\n' || c == '\U{000B}' || c == '\U{000C}' || c == '\r'
    || c == ' ' || c == '\U{00A0}' || c == '\U{1680}'
    || ('\U{2000}' <= c <= '\U{200A}')
    || c == '\U{2028}' || c == '\U{2029}' || c == '\U{202F}' || c == '\U{205F}'
    || c == '\U{3000}' || c == '\U{FEFF}'
  }

  /** `s` without its leading whitespace. */
  function TrimStart(s: string): (r: string)
    ensures |r| <= |s| && r == s[|s| - |r|..]
    ensures forall i :: 0 <= i < |s| - |r| ==> IsJsWhitespace(s[i])
    ensures r != [] ==> !IsJsWhitespace(r[0])
    decreases |s|
  {
    if s != [] && IsJsWhitespace(s[0]) then TrimStart(s[1..]) else s
  }

  /** `s` without its trailing whitespace. */
  function TrimEnd(s: string): (r: string)
    ensures |r| <= |s| && r == s[..|r|]
    ensures forall i :: |r| <= i < |s| ==> IsJsWhitespace(s[i])
    ensures r != [] ==> !IsJsWhitespace(r[|r| - 1])
    decreases |s|
  {
    if s != [] && IsJsWhitespace(s[|s| - 1]) then TrimEnd(s[..|s| - 1]) else s
  }

  /** `input.trim()`: the trimmed string is empty exactly when every character is whitespace. */
  function Trim(s: string): (r: string)
    ensures r == [] <==> forall i :: 0 <= i < |s| ==> IsJsWhitespace(s[i])
    ensures r != [] ==> !IsJsWhitespace(r[0]) && !IsJsWhitespace(r[|r| - 1])
  {
    var front := TrimStart(s);
    var r := TrimEnd(front);
    assert forall i :: |s| - |front| <= i < |s| ==> s[i] == front[i - (|s| - |front|)];
    r
  }

  /**
   * One character of `[a-z0-9-]` under the case-insensitive flag.  Without the
   * unicode flag JavaScript never folds a non-ASCII character onto an ASCII
   * one, so the class is exactly the ASCII letters of either case, the digits
   * and the hyphen.
   */
  predicate IsNameChar(c: char)
  {
    ('a' <= c <= 'z') || ('A' <= c <= 'Z') || ('0' <= c <= '9') || c == '-'
  }

  /** `/^[a-z0-9-]+$/i.test(s)`. */
  predicate MatchesNamePattern(s: string)
  {
    |s| > 0 && forall i :: 0 <= i < |s| ==> IsNameChar(s[i])
  }

  datatype Validation = Accepted | Rejected(message: string)

  const EmptyNameMessage := "Project name cannot be empty"
  const NameCharsMessage := "Project name can only contain letters, numbers, and hyphens"

  /**
   * The name prompt's validator: a blank name is refused with one message,
   * a name with a character outside the pattern with the other, and every
   * other name is accepted.
   */
  function Validate(input: string): (v: Validation)
    ensures v == Accepted <==> MatchesNamePattern(input)
    ensures (forall i :: 0 <= i < |input| ==> IsJsWhitespace(input[i])) ==> v == Rejected(EmptyNameMessage)
    ensures v != Accepted ==> v == Rejected(EmptyNameMessage) || v == Rejected(NameCharsMessage)
    ensures !MatchesNamePattern(input) && (exists i :: 0 <= i < |input| && !IsJsWhitespace(input[i])) ==>
              v == Rejected(NameCharsMessage)
  {
    if Trim(input) == "" then
      Rejected(EmptyNameMessage)
    else if !MatchesNamePattern(input) then
      Rejected(NameCharsMessage)
    else
      Accepted
  }

  // ---------------------------------------------------------------------------
  // Which questions are asked, and how a supplied name overrides the answer

  /** A name argument counts as given when JavaScript finds it truthy: present and non-empty. */
  predicate Supplied(name: Option<string>)
  {
    name.Some? && name.value != ""
  }

  datatype Question =
    | NameQuestion
    | PackageManagerQuestion
    | FrameworkQuestion
    | CssToolQuestion
    | LanguageQuestion
    | EslintQuestion
    | PrettierQuestion

  /** The questions put to the user, in order: the name only when none was given. */
  function Questions(name: Option<string>): (qs: seq<Question>)
    ensures NameQuestion in qs <==> !Supplied(name)
    ensures |qs| == if Supplied(name) then 6 else 7
    ensures qs[|qs| - 6..] == [PackageManagerQuestion, FrameworkQuestion, CssToolQuestion,
                              LanguageQuestion, EslintQuestion, PrettierQuestion]
  {
    (if Supplied(name) then [] else [NameQuestion])
    + [PackageManagerQuestion, FrameworkQuestion, CssToolQuestion,
       LanguageQuestion, EslintQuestion, PrettierQuestion]
  }

  /** What the prompt returns; `projectName` is present only when the name was asked. */
  datatype Answers = Answers(
    projectName: Option<string>,
    packageManager: PackageManager,
    framework: Framework,
    cssTool: CssTool,
    language: Language,
    eslint: bool,
    prettier: bool)

  /** The prompt's answers with a supplied name taking the place of the prompted one. */
  function MergeAnswers(name: Option<string>, a: Answers): (o: ProjectOptions)
    requires NameQuestion in Questions(name) ==> a.projectName.Some?
    ensures Supplied(name) ==> o.projectName == name.value
    ensures !Supplied(name) ==> o.projectName == a.projectName.value
    ensures o.packageManager == a.packageManager && o.framework == a.framework
    ensures o.cssTool == a.cssTool && o.language == a.language
    ensures o.eslint == a.eslint && o.prettier == a.prettier
  {
    ProjectOptions(
      if Supplied(name) then name.value else a.projectName.value,
      a.packageManager, a.framework, a.cssTool, a.language, a.eslint, a.prettier)
  }

  /** A prompted name has passed the validator, so the merged record's name matches the pattern. */
  lemma PromptedNameMatchesPattern(name: Option<string>, a: Answers)
    requires !Supplied(name)
    requires a.projectName.Some? && Validate(a.projectName.value) == Accepted
    ensures MatchesNamePattern(MergeAnswers(name, a).projectName)
  {
  }

  /**
   * A supplied name is never validated: whatever non-empty name is given
   * becomes the project name, so one the validator rejects gets through.
   */
  lemma SuppliedNameIsNotValidated(name: string, a: Answers)
    requires name != ""
    ensures MergeAnswers(Some(name), a).projectName == name
    ensures Validate(name) != Accepted ==> !MatchesNamePattern(MergeAnswers(Some(name), a).projectName)
  {
  }

  /** Such a name exists: one with a space is rejected by the validator and still taken as given. */
  lemma SuppliedRejectedNameExists(a: Answers)
    ensures exists name :: name != "" && Validate(name) == Rejected(NameCharsMessage)
                           && MergeAnswers(Some(name), a).projectName == name
  {
    var name := "my app";
    assert !IsNameChar(name[2]);
    assert !IsJsWhitespace(name[0]);
    assert Validate(name) == Rejected(NameCharsMessage);
  }
}
