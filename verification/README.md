# RFC 7807 problem registry, modelled in Dafny

This project models the problem-details registry of `rfc7807.go`. The registry
formats HTTP error bodies as "Problem Details for HTTP APIs" (RFC 7807). The
reserved members `type`, `title`, `status` and `detail` are defined in section 3.1
of RFC 7807, and extension members in section 3.2.

Without HTTP and JSON, the registry is a small stateful structure:

- `Rfc7807.Registry` is a class. It holds the base URL and the router, modelled
  as a map from page path to HTML served there. It also holds the handler map
  `problemHandlers`, from title to `Entry`. The Go `mux` and `problemHandlers`
  are initialised lazily, so two flags record whether each exists yet.
- A registered handler is a Go closure. Here it is the `Entry` it captures
  (title and documentation URL) plus the method `Problems.Handle`, which
  builds that handler's response.
- A problem is a `map<string, Value>`. Each `Value` is a string, an integer, or
  an opaque JSON value carried by an extension. `Ext(key, value)` is the
  `Extension` datatype constructor.
- The problem builders insert the extensions with a loop (`FillExtensions`),
  then overwrite the reserved members. They are proved against `Merge`, the
  in-order insertion, and `MergeLastWins` characterises `Merge` independently:
  each key carries the value of its last extension.
- `url.PathEscape`, the `url.Parse`/`path.Join`/`String` sequence and
  `http.StatusText` are the function values of a `Platform.Lib`. The
  `html/template` engine and blackfriday are the function values of a
  `Docs.Renderer`: template parsing and execution may fail, Markdown rendering
  is total. Results hold for every choice of these functions. A few lemmas
  assume one stated property of them (`Sound`: joining a non-empty path gives a
  non-empty URL; `EscapeInjective`: escaping is injective).
- Go byte slices and strings are both modelled as `string`, because Go converts
  between them without changing the bytes. A nil slice is `None`. Slice
  sharing is not modelled (see "## Left out").

## Model

| member | source | states |
|---|---|---|
| `Rfc7807.Registry.New` | rfc7807.go:16-22 | a new registry has the given base URL, a router with no routes and an empty handler map |
| `Rfc7807.Registry.Bare` | rfc7807.go:24-28 | a registry written as a struct literal has no router and no handler map yet, and is still a valid registry |
| `Rfc7807.Registry.HtmlDoc` | rfc7807.go:81-125 | creates the router and handler map if missing; the title's handler becomes one capturing the title and `DocURL`, and every other title is unchanged, so the last registration wins; a non-empty page gets a route at `"/" + PathEscape(title) + ".html"`, otherwise routes are unchanged; keeps `Valid` |
| `Rfc7807.Registry.TemplateDoc` | rfc7807.go:56-68 | succeeds exactly when the template parses and executes; a parse failure returns `ParseError` and an execution failure `ExecError`, both leaving the registry untouched; on success the rendered bytes are registered as `HtmlDoc` registers them: the router and handler map exist, the entry and handler map update, the route is added for a non-empty page, and the base URL is unchanged |
| `Rfc7807.Registry.Doc` | rfc7807.go:52-54 | the same contract as `TemplateDoc` with the default template as the source: succeeds exactly when it parses and executes, reports which step failed and leaves the registry untouched on failure, and registers the rendered page on success |
| `Rfc7807.Registry.MarkdownDoc` | rfc7807.go:70-79 | registers the Markdown output wrapped in the page shell as rfc7807.go writes it (with literal backslash-n), which is never empty, so a route is always added; the base URL is unchanged; the documentation URL is non-empty under `Sound` |
| `Rfc7807.Registry.Error` | rfc7807.go:127-152 | the response status is `status`; a registered title yields exactly its handler's problem, written with that title and `type` equal to its documentation URL; any other title yields the fallback problem |
| `Problems.Handle` | rfc7807.go:105-122 | a handler's response has status `status` and body `RegisteredProblem` for the captured entry |
| `Problems.FillExtensions` | rfc7807.go:106-110 | inserting the extensions in a loop gives `Merge(exts)` |
| `Problems.MergeLastWins` | rfc7807.go:108-110 | the merged keys are exactly the extension keys, and each key carries the value of the last extension with that key |
| `Problems.RegisteredProblemShape` | rfc7807.go:106-115 | keys are the extension keys plus `type`, `title`, `status`, `detail`; these four always hold the captured URL, captured title, status and detail, overriding extensions of the same name; other keys carry their last extension value |
| `Problems.FallbackProblemShape` | rfc7807.go:133-145 | keys are the extension keys plus `title`, `status`, `detail`; `type` is present only when an extension gave one, and then that extension's value survives; `title` is `StatusText(status)` when the title is empty, else the title |
| `Platform.DocPath` | rfc7807.go:88 | the page path is `/`, the escaped title, `.html`, and the escaped title can be read back from it |
| `Platform.DocPathInjective` | rfc7807.go:88 | equal page paths come from equal escaped titles |
| `Platform.DistinctTitlesDistinctRoutes` | rfc7807.go:88-90 | when escaping is injective, distinct titles get distinct routes |
| `Platform.DocURLEmptyIff` | rfc7807.go:86-99 | under `Sound`, the documentation URL is empty exactly when the HTML is nil or empty |
| `Docs.MarkdownShell` | rfc7807.go:71-76 | the Markdown page is longer than title plus body, starts with the fixed head, has the title right after the head and the rendered body right before the tail |
| `Docs.MarkdownShellAsWritten` | rfc7807.go:72-76 | the page shell as rfc7807.go writes it is non-empty, starts with its fixed head, has the title right after the head and the rendered body right before the tail |
| `Docs.AsWrittenShellShowsBackslashN` | rfc7807.go:72 | as written, every Markdown page has a backslash and an `n` right after `<html>` |
| `Docs.ShellIsMarkupOnly` | rfc7807.go:72-76 | the corrected shell puts a line break right after `<html>`, and its fixed text has no backslash |

## Left out

- HTTP writing is left out: `WriteHeader`, the `Content-Type` headers, and writing the body and doc page bytes. A response is only its status and its problem object. The order in which the source sets headers after `WriteHeader` is not modelled.
- `ServeHTTP` and chi routing: the router is only its route table (path to served bytes); request matching is external.
- JSON encoding, its two-space indentation and its ignored errors: the problem object is the map before serialisation.
- The internals of `html/template`, blackfriday, `url.PathEscape`, `url.Parse`, `path.Join` and `http.StatusText`: they are function values. So the claim that the default template's page contains the title and description is not proved, because it depends on the template engine.
- `DefaultTemplate` is an exported package variable at rfc7807.go:41 that callers may reassign, and `Doc` reads its current value. The model fixes it to its original text, so reassignment by callers is not modelled.
- The ignored `url.Parse` error and the nil dereference a bad base URL would cause: `joinURL` is total.
- A nil `*Extension` passed to `Error` or a handler panics in the source; extensions here are values and cannot be nil.
- The route added at rfc7807.go:90-93 keeps the caller's `html` slice and writes it when a request arrives, so a caller that changes the slice after registration changes the page served. The model records the bytes as they are at registration.
- Concurrent registration and dispatch: the source has no locking, and the model is sequential.
- The Go type of extension values: `Value` is a string, an integer or an opaque value.
- Rfc7807.Registry.MarkdownDoc: a non-empty documentation URL is promised only under `Sound`, because URL joining is not modelled.

## Findings

| source | as written | input that shows it | evidently intended | confidence | as-written member | corrected member |
|---|---|---|---|---|---|---|
| rfc7807.go:72-76 | the Markdown page shell is written with backquoted raw string literals, so each `\n` is a backslash followed by `n` | any `MarkdownDoc` call, e.g. title `Oops` with empty Markdown: the page begins `<html>\n<head>` with a literal backslash-n, which the browser shows as text | line breaks between the shell's tags | high; not executed | `Docs.AsWrittenShellShowsBackslashN` | `Docs.ShellIsMarkupOnly` |

`MarkdownDoc` registers the shell as written, `Docs.MarkdownShellAsWritten`, so the page bytes it serves contain the literal backslash-n. The corrected shell `Docs.MarkdownShell` differs from it only in those bytes. Its entry and routes would have the same shape, because both shells are non-empty.
