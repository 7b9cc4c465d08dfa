/**
 * The problem registry: a mapping from problem title to the handler that
 * writes that title's problem details, the documentation pages served for
 * registered titles, and dispatch with a fallback for unknown titles.
 */
module Rfc7807 {
  import opened Wrappers
  import opened Platform
  import opened Problems
  import opened Docs

  class Registry {
    /** The library functions the registry calls. */
    const lib: Lib
    /** The base URL documentation links are built on (an exported field). */
    var url: string
    /** Whether the router has been created. */
    var muxReady: bool
    /** The router's GET routes: page path to the HTML bytes served there. */
    var routes: map<string, string>
    /** Whether the handler map has been created (reading a nil map finds nothing). */
    var handlersReady: bool
    /** Title to registered handler, each given by what it captured. */
    var problemHandlers: map<string, Entry>

    /** A handler is stored under its own title, and one that links to a
        documentation page has a route for that page. */
    ghost predicate Valid()
      reads this
    {
      && (!muxReady ==> routes == map[])
      && (!handlersReady ==> problemHandlers == map[])
      && forall t :: t in problemHandlers ==>
           && problemHandlers[t].title == t
           && (problemHandlers[t].docURL != "" ==> DocPath(lib.pathEscape(t)) in routes)
    }

    /** A registry with a router and no registered titles. */
    constructor New(lib: Lib, url: string)
      ensures Valid()
      ensures this.lib == lib && this.url == url
      ensures muxReady && handlersReady
      ensures routes == map[] && problemHandlers == map[]
    {
      this.lib := lib;
      this.url := url;
      muxReady := true;
      routes := map[];
      handlersReady := true;
      problemHandlers := map[];
    }

    /** A registry written as a struct literal, without `New`: no router and
        no handler map yet. */
    constructor Bare(lib: Lib, url: string)
      ensures Valid()
      ensures this.lib == lib && this.url == url
      ensures !muxReady && !handlersReady
      ensures routes == map[] && problemHandlers == map[]
    {
      this.lib := lib;
      this.url := url;
      muxReady := false;
      routes := map[];
      handlersReady := false;
      problemHandlers := map[];
    }

    /** Registers `title` with the given HTML page (possibly nil or empty).
        A non-empty page gets a route at its documentation path and a
        documentation URL; the title's handler is replaced by one capturing
        that URL, and no other title's handler changes. */
    method HtmlDoc(title: string, html: Option<string>) returns (h: Entry)
      requires Valid()
      modifies this
      ensures Valid()
      ensures url == old(url) && muxReady && handlersReady
      ensures h == Entry(title, DocURL(lib, url, title, html))
      ensures problemHandlers == old(problemHandlers)[title := h]
      ensures HasContent(html) ==> routes == old(routes)[DocPath(lib.pathEscape(title)) := html.value]
      ensures !HasContent(html) ==> routes == old(routes)
    {
      if !muxReady {
        muxReady := true;
        routes := map[];
      }
      var docURL := "";
      if html.Some? && |html.value| > 0 {
        var p := DocPath(lib.pathEscape(title));
        routes := routes[p := html.value];
        docURL := lib.joinURL(url, p);
      }
      if !handlersReady {
        handlersReady := true;
        problemHandlers := map[];
      }
      h := Entry(title, docURL);
      problemHandlers := problemHandlers[title := h];
    }

    /** Registers `title` with a page rendered from a template. A template
        that fails to parse or to execute is reported and leaves the registry
        untouched; otherwise the rendered bytes are registered exactly as
        `HtmlDoc` registers them. */
    method TemplateDoc(r: Renderer, title: string, description: string, source: string)
      returns (result: Result<Entry, TemplateError>)
      requires Valid()
      modifies this
      ensures Valid()
      ensures result.Ok? <==> Render(r, title, description, source).Ok?
      ensures Render(r, title, description, source).Err? ==>
        result == Err(Render(r, title, description, source).error) && unchanged(this)
      ensures Render(r, title, description, source).Ok? ==>
        var page := Render(r, title, description, source).value;
        && result == Ok(Entry(title, DocURL(lib, url, title, Some(page))))
        && url == old(url) && muxReady && handlersReady
        && problemHandlers == old(problemHandlers)[title := result.value]
        && routes == if |page| > 0 then old(routes)[DocPath(lib.pathEscape(title)) := page] else old(routes)
    {
      var parsed := r.parse(source);
      if parsed.Err? {
        return Err(ParseError(parsed.error));
      }
      var executed := r.execute(parsed.value, TemplateData(title, description));
      if executed.Err? {
        return Err(ExecError(executed.error));
      }
      var h := HtmlDoc(title, Some(executed.value));
      result := Ok(h);
    }

    /** Registers `title` with the default template's page: `TemplateDoc`
        with the default template as its source. */
    method Doc(r: Renderer, title: string, description: string) returns (result: Result<Entry, TemplateError>)
      requires Valid()
      modifies this
      ensures Valid()
      ensures result.Ok? <==> Render(r, title, description, DefaultTemplate).Ok?
      ensures Render(r, title, description, DefaultTemplate).Err? ==>
        result == Err(Render(r, title, description, DefaultTemplate).error) && unchanged(this)
      ensures Render(r, title, description, DefaultTemplate).Ok? ==>
        var page := Render(r, title, description, DefaultTemplate).value;
        && result == Ok(Entry(title, DocURL(lib, url, title, Some(page))))
        && url == old(url) && muxReady && handlersReady
        && problemHandlers == old(problemHandlers)[title := result.value]
        && routes == if |page| > 0 then old(routes)[DocPath(lib.pathEscape(title)) := page] else old(routes)
    {
      result := TemplateDoc(r, title, description, DefaultTemplate);
    }

    /** Registers `title` with a page rendered from Markdown, wrapped in the
        page shell exactly as rfc7807.go writes it. The page is never
        empty, so it always gets a route, and its documentation URL is
        non-empty whenever joining a path onto the base URL keeps the path. */
    method MarkdownDoc(r: Renderer, title: string, markdown: string) returns (h: Entry)
      requires Valid()
      modifies this
      ensures Valid()
      ensures url == old(url)
      ensures h == Entry(title, DocURL(lib, url, title, Some(MarkdownShellAsWritten(title, r.markdown(markdown)))))
      ensures Sound(lib) ==> h.docURL != ""
      ensures problemHandlers == old(problemHandlers)[title := h]
      ensures routes == old(routes)[DocPath(lib.pathEscape(title)) := MarkdownShellAsWritten(title, r.markdown(markdown))]
    {
      var page := MarkdownShellAsWritten(title, r.markdown(markdown));
      h := HtmlDoc(title, Some(page));
      if Sound(lib) {
        DocURLEmptyIff(lib, url, title, Some(page));
      }
    }

    /** Writes the problem for `title`: a registered title's handler decides
        the response; any other title, the empty one included, gets the
        fallback object without a `type` of its own. Either way the status
        written is `status`, and a registered title is written as itself. */
    method Error(title: string, status: int, detail: string, exts: seq<Extension>) returns (resp: Response)
      ensures resp.status == status
      ensures title in problemHandlers ==>
        resp.body == RegisteredProblem(problemHandlers[title], status, detail, exts)
      ensures title !in problemHandlers ==>
        resp.body == FallbackProblem(lib, title, status, detail, exts)
      ensures Valid() && title in problemHandlers ==>
        resp.body[TitleKey] == Str(title) && resp.body[TypeKey] == Str(problemHandlers[title].docURL)
    {
      if title in problemHandlers {
        resp := Handle(problemHandlers[title], status, detail, exts);
        RegisteredProblemShape(problemHandlers[title], status, detail, exts);
        return;
      }
      var problem := FillExtensions(exts);
      var written := title;
      if written == "" {
        written := lib.statusText(status);
      }
      problem := problem[TitleKey := Str(written)];
      problem := problem[StatusKey := Int(status)];
      problem := problem[DetailKey := Str(detail)];
      resp := Response(status, problem);
    }
  }
}
