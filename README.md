# Samurai Scroll Portal: upload handling

This project models the upload handling of the portal page of the Samurai Scroll
Portal, a small Flask application. A visitor uploads a "scroll", an XML document,
in the form field `scroll`. The handler produces two optional strings for the page:

- the **raw preview**: the upload decoded as text and cut to 2000 characters;
- the **summary**: the labelled lines `Name: …`, `Rank: …` and `Scroll: …` built
  from three direct children of the document's root. `message` stands in for
  `quote`. The summary is absent when there is nothing to show.

If the document does not parse, there is no summary. A fixed note that carries the
parser's error text is appended to the preview.

Modules:

- `Wrappers` (wrappers.dfy): `Option`, which stands for Python's `None` beside a value.
- `Markup` (markup.dfy): the parsed tree (`Element`: tag, own text, children), the
  parser options (`ParserPolicy` and the fixed `PortalPolicy`), the parse outcome
  (`Parsed(root)` or `Failed(detail)`), and lxml's `findtext` with a bare tag name.
- `Extraction` (extraction.dfy): Python's `x or ''` and the three field values, with
  the `quote`/`message` fallback.
- `Preview` (preview.dfy): truncation, the raw preview, the fallback placeholder and
  the failure note.
- `Composer` (composer.dfy): `str.join`, the labelled lines in their fixed order, and
  the optional summary.
- `Portal` (portal.dfy): the handler as a method, `HandlePortal`, which reassigns
  its locals along the success and failure paths. The summary assembly is the
  method `ComposeSummary`, whose `parts` sequence grows by conditional appends, as
  in the source. The module also holds two worked scenarios.

Decoding and parsing are library calls, so they are parameters of
`Portal.HandlePortal`. `decode` gives the decoded text, or `None` when decoding
raises. `parse` gives the outcome of `etree.fromstring` under the parser options
it is passed. The handler always passes `PortalPolicy`: DTDs loaded, entities
resolved, network allowed.

The join separator (`Composer.Separator`) and the failure note
(`Preview.FailureNote`) are the source's literals. The source writes `"\\n"`, so
each is a backslash followed by `n`, not a newline. The Dafny literals are written
the same way and have the same two characters.

Points about the code's behaviour that the model keeps:

- Only the preview before annotation is bounded. The note is appended after
  truncation (app.py:167, 183), so an annotated preview can be longer than 2000
  characters. See `Preview.AnnotatedPreviewExceedsLimit`.
- `findtext` with a bare tag name reads only the root's direct children
  (app.py:174-176). Deeper descendants are never searched. See
  `Markup.FindTextReadsDirectChildrenOnly` and `Portal.MessageStandsInForQuote`.
- The summary lines are separated by a backslash and `n`, not by a newline
  (app.py:181). See `Portal.FullScrollSummary`.
- `ALLOW_EXTERNAL_ENTITIES` (app.py:24) is never read. The parser options are
  written out where the parser is built (app.py:172), and the model has them as the
  constant `PortalPolicy`.
- The failure note carries the exception's text verbatim (app.py:183). An lxml
  error message can quote content the parser fetched while resolving entities.
  The model puts no constraint on `detail`, so it does not exclude this.

## Model

| member | source | states |
|---|---|---|
| `Markup.FirstChild` | app.py:174-176 | the index returned holds the first direct child with the tag; none is returned exactly when no direct child has the tag |
| `Markup.FindText` | app.py:174-176 | `findtext(tag)` is `None` exactly when no direct child of the root has the tag; otherwise it is the own text of the first such child, or `''` when that child has no text |
| `Markup.FindTextReadsDirectChildrenOnly` | app.py:174-176 | a lookup depends only on the tags and own texts of the root's direct children; the root's own tag and text and all deeper descendants do not matter |
| `Extraction.OrElse` | app.py:174-176 | Python's `a or b`: `a` when it is a non-empty string; otherwise `b` |
| `Extraction.ChildText` | app.py:174-175 | `findtext(tag) or ''` is the first matching direct child's own text; a missing element and an element without text both give `''`, not an error |
| `Extraction.Extract` | app.py:174-176 | name and rank are their children's texts; the scroll value is `quote`'s text when non-empty, otherwise `message`'s text |
| `Extraction.ScrollEmptyIff` | app.py:176 | the scroll value is empty exactly when both `quote` and `message` give empty text |
| `Extraction.ExtractReadsDirectChildrenOnly` | app.py:174-176 | two documents whose roots have the same direct children (tags and own texts) give the same fields |
| `Preview.Truncate` | app.py:167 | `s[:n]` is a prefix of `s` of length `min(|s|, n)` |
| `Preview.RawPreview` | app.py:166-169 | the preview has at most 2000 characters; it is a prefix of the decoded text, and all of it when that text is no longer than 2000; it is `<binary data>` when decoding raised |
| `Preview.Annotate` | app.py:182-183 | the annotated preview starts with the earlier preview, then has the fixed note, then the error text, then `)`; its length is the sum of those parts |
| `Preview.AnnotatedPreviewExceedsLimit` | app.py:167-183 | when the decoded text has at least 2000 characters, the annotated preview is longer than 2000: only the preview before annotation is bounded |
| `Composer.Join` | app.py:181 | `sep.join(parts)` is empty for no parts, starts with the first part, and is as long as the parts plus one separator between each pair of neighbours; its contents are stated by `Composer.JoinAppend` |
| `Composer.JoinAppend` | app.py:177-181 | joining one more part gives the earlier join, then the separator, then that part; so every part appears in order, each after a separator, as the appends build the list |
| `Composer.SummaryLines` | app.py:177-180 | each line is the labelled line of a non-empty field; each non-empty field has its line; the lines are in strict Name, Rank, Scroll order |
| `Composer.InSlotOrderUnique` | app.py:177-180 | two line lists in strict label order with the same elements are equal |
| `Composer.SummaryLinesDetermined` | app.py:177-180 | any line list with the three properties of `SummaryLines` equals it, so those properties define the summary lines completely |
| `Composer.Summary` | app.py:177-181 | the summary is absent exactly when all three fields are empty and is never `''`; when present it is the lines joined by the separator and starts with the Name line when there is one |
| `Composer.SummaryOfAllThree` | app.py:178-181 | with all three fields non-empty the summary is exactly `Name: n`, `Rank: r`, `Scroll: q` in that order, separated by the separator |
| `Portal.HandlePortal` | app.py:160-183 | without a POST or a truthy uploaded file, both strings are absent; otherwise a parse under the fixed options gives the raw preview and the summary of the extracted fields; a failed parse gives no summary and the raw preview with the note and error text appended |
| `Portal.ComposeSummary` | app.py:177-181 | the lines appended for the non-empty values, in the order Name, Rank, Scroll, and then joined (or absent when none) are exactly `Composer.Summary` of those values |
| `Portal.FailedUploadShowsDiagnostic` | app.py:167-183 | after a failed parse the preview begins with the truncated decoded text, and the error text stands just before the closing `)` |
| `Portal.FullScrollSummary` | app.py:174-181 | a root with children `name` A, `rank` B, `quote` C gives the summary `Name: A\nRank: B\nScroll: C`, where each `\n` is a backslash and `n` |
| `Portal.MessageStandsInForQuote` | app.py:174-181 | with no `quote` child, `message` gives the scroll line; a `name` nested below a direct child is not found, so the summary is `Scroll: C` alone |

## Left out

- The XML parser itself: lxml's DTD loading, entity resolution and network and filesystem access (app.py:172-173). These are foreign calls. Their result is the `parse` parameter, which receives the fixed options but is otherwise unconstrained.
- UTF-8 decoding with replacement (app.py:167). This is a library call and is the `decode` parameter. Its `None` result models the `except` branch (app.py:168-169), which `errors='replace'` makes unreachable in practice.
- The text of lxml's exception messages (app.py:182-183). This is library output, carried as `Failed(detail)`. Exceptions other than the parser's cannot arise in the lookups and are not modelled.
- Flask routing, the request and uploaded-file objects, `url_for` and template rendering (app.py:158, 163-165, 185-187). This is web plumbing. A request is reduced to its method and the `scroll` field. A file's truthiness is reduced to a non-empty file name, which is how Werkzeug's uploaded-file object defines it.
- The HTML page, the audio source and the UI constants (app.py:18-21, 28-155). This is presentation. Whether the template shows an empty string is presentation too.
- `ALLOW_EXTERNAL_ENTITIES` (app.py:24). The code never reads it, so it has no effect to model.
- Process startup and port parsing (app.py:189-191). This is I/O.
- Concurrency. Each request is handled on its own, and no state is shared between requests.
