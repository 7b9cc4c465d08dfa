/**
 * Rendering of documentation pages. The `html/template` engine and the
 * blackfriday Markdown renderer are external libraries: they are given as
 * function values (parsing and execution may fail, Markdown rendering is
 * total), and only the page shell written around the Markdown output is
 * modelled as text.
 */
module Docs {
  import opened Wrappers

  /** A parsed template, as an opaque handle of the template engine. */
  datatype Template = Template(handle: nat)

  /** The external renderers. */
  datatype Renderer = Renderer(
    parse: string -> Result<Template, string>,                 // template.New(..).Parse
    execute: (Template, map<string, string>) -> Result<string, string>, // Template.Execute
    markdown: string -> string)                                // blackfriday.MarkdownCommon

  /** Why a templated documentation page could not be produced. */
  datatype TemplateError = ParseError(msg: string) | ExecError(msg: string)

  /** The page template used when the caller supplies none. */
  const DefaultTemplate: string :=
    "<html>\n  <head>\n    <meta charset=\"utf-8\">\n    <title>Error {{.Title}}</title>\n  </head>\n" +
    "  <body>\n    <h1>{{.Title}}</h1>\n    <pre>{{.Description}}</pre>\n  </body>\n</html>"

  /** The data a template is executed against. */
  function TemplateData(title: string, description: string): map<string, string> {
    map["Title" := title, "Description" := description]
  }

  /** The page a template source renders for a title and description, or the
      step that failed: parsing first, then execution. */
  function Render(r: Renderer, title: string, description: string, source: string): Result<string, TemplateError> {
    match r.parse(source)
    case Err(msg) => Err(ParseError(msg))
    case Ok(t) =>
      match r.execute(t, TemplateData(title, description))
      case Err(msg) => Err(ExecError(msg))
      case Ok(page) => Ok(page)
  }

  // The fixed text written around a rendered Markdown page, with the line
  // breaks between the tags that the shell is evidently meant to contain.
  const MarkdownHead := "<html>\n" + "<head>\n" + "  <meta charset=\"utf-8\">\n" + "  <title>Error "
  const MarkdownMid := "</title>\n" + "</head>\n" + "<body>"
  const MarkdownTail := "</body>\n" + "</html>"

  // The same fixed text as rfc7807.go writes it: raw string literals in
  // which `\n` is a backslash followed by the letter n, not a line break.
  const MarkdownHeadAsWritten := "<html>\\n" + "<head>\\n" + "  <meta charset=\"utf-8\">\\n" + "  <title>Error "
  const MarkdownMidAsWritten := "</title>\\n" + "</head>\\n" + "<body>"
  const MarkdownTailAsWritten := "</body>\\n" + "</html>"

  /** The HTML page for a title and its rendered Markdown body: a non-empty
      document with the title inside `<title>` and the body inside `<body>`. */
  function MarkdownShell(title: string, body: string): (page: string)
    ensures |page| == |MarkdownHead| + |title| + |MarkdownMid| + |body| + |MarkdownTail|
    ensures |page| > |title| + |body|
    ensures page[..|MarkdownHead|] == MarkdownHead
    ensures page[|MarkdownHead|..|MarkdownHead| + |title|] == title
    ensures page[|page| - |MarkdownTail| - |body|..|page| - |MarkdownTail|] == body
  {
    MarkdownHead + title + MarkdownMid + body + MarkdownTail
  }

  /** The page shell exactly as rfc7807.go builds it. */
  function MarkdownShellAsWritten(title: string, body: string): (page: string)
    ensures |page| == |MarkdownHeadAsWritten| + |title| + |MarkdownMidAsWritten| + |body| + |MarkdownTailAsWritten|
    ensures |page| > |title| + |body|
    ensures page[..|MarkdownHeadAsWritten|] == MarkdownHeadAsWritten
    ensures page[|MarkdownHeadAsWritten|..|MarkdownHeadAsWritten| + |title|] == title
    ensures page[|page| - |MarkdownTailAsWritten| - |body|..|page| - |MarkdownTailAsWritten|] == body
  {
    MarkdownHeadAsWritten + title + MarkdownMidAsWritten + body + MarkdownTailAsWritten
  }

  /** As written, every Markdown page starts with `<html>` followed by the
      two visible characters `\` and `n`, which a browser shows as text. */
  lemma AsWrittenShellShowsBackslashN(title: string, body: string)
    ensures var page := MarkdownShellAsWritten(title, body);
      |page| > 7 && page[6] == '\\' && page[7] == 'n'
  {
  }

  /** With the corrected shell, the fixed text holds no backslash: it is
      markup and line breaks only, and the page starts with `<html>` and a
      line break. */
  lemma ShellIsMarkupOnly(title: string, body: string)
    ensures var page := MarkdownShell(title, body);
      |page| > 6 && page[6] == '\n'
    ensures '\\' !in MarkdownHead && '\\' !in MarkdownMid && '\\' !in MarkdownTail
  {
  }
}
