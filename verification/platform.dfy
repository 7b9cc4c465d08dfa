/**
 * The Go library functions the registry calls and whose internals are not
 * modelled: `url.PathEscape`, the `url.Parse` / `path.Join` / `URL.String`
 * sequence that turns a base URL and a path into a documentation link, and
 * `http.StatusText`. They are given as function values, and what the model
 * proves holds for every choice of them unless a lemma says otherwise.
 */
module Platform {
  import opened Wrappers

  datatype Lib = Lib(
    pathEscape: string -> string,          // url.PathEscape
    joinURL: (string, string) -> string,   // base URL + path, via url.Parse and path.Join
    statusText: int -> string)             // http.StatusText

  /** Joining a non-empty path onto any base yields a non-empty URL string
      (the path is kept in the URL's path component). */
  ghost predicate Sound(lib: Lib) {
    forall base, p :: p != "" ==> lib.joinURL(base, p) != ""
  }

  /** `url.PathEscape` is injective: percent-escaping can be undone. */
  ghost predicate EscapeInjective(lib: Lib) {
    forall a, b :: lib.pathEscape(a) == lib.pathEscape(b) ==> a == b
  }

  /** The route of a documentation page, `"/" + escaped title + ".html"`.
      The escaped title can be read back from the path. */
  function DocPath(escaped: string): (p: string)
    ensures |p| == |escaped| + 6
    ensures p[0] == '/' && p[|p| - 5..] == ".html"
    ensures p[1..|p| - 5] == escaped
  {
    "/" + escaped + ".html"
  }

  /** Whether a byte slice is non-nil and non-empty. */
  predicate HasContent(html: Option<string>) {
    html.Some? && |html.value| > 0
  }

  /** The documentation URL captured at registration: empty unless there are
      HTML bytes to serve, else the page's path joined onto the base URL. */
  function DocURL(lib: Lib, base: string, title: string, html: Option<string>): string {
    if HasContent(html) then lib.joinURL(base, DocPath(lib.pathEscape(title))) else ""
  }

  /** Two paths are equal only when their escaped titles are. */
  lemma DocPathInjective(a: string, b: string)
    requires DocPath(a) == DocPath(b)
    ensures a == b
  {
  }

  /** Distinct titles get distinct documentation routes, so one title's page
      never replaces another's. */
  lemma DistinctTitlesDistinctRoutes(lib: Lib, t1: string, t2: string)
    requires EscapeInjective(lib)
    requires t1 != t2
    ensures DocPath(lib.pathEscape(t1)) != DocPath(lib.pathEscape(t2))
  {
  }

  /** The documentation URL is empty exactly when no HTML bytes were given. */
  lemma DocURLEmptyIff(lib: Lib, base: string, title: string, html: Option<string>)
    requires Sound(lib)
    ensures DocURL(lib, base, title, html) == "" <==> !HasContent(html)
  {
  }
}
