/** The upload handling of the portal page: one request in, the two
    optional display strings out. Decoding and parsing are library calls
    and come in as parameters. */
module Portal {

  import opened Wrappers
  import opened Markup
  import opened Extraction
  import opened Preview
  import opened Composer

  /** An uploaded file field: the client's file name and the file's bytes. */
  datatype Upload = Upload(filename: string, data: seq<byte>)

  /** What the handler reads of a request: its method and the file field
      named `scroll`, if the form has one. */
  datatype Request = Request(httpMethod: string, scroll: Option<Upload>)

  /** The handler processes an upload only for a POST whose `scroll` field is
      present and truthy; an uploaded-file object is truthy when its file name
      is non-empty. */
  predicate HasUpload(req: Request) {
    req.httpMethod == "POST" && req.scroll.Some? && req.scroll.value.filename != ""
  }

  /** The body of the portal handler. `decode` stands for
      `data.decode(errors='replace')` (`None` if it raised) and `parse` for
      `etree.fromstring` under the given parser options. Returns the raw
      preview and the summary the page shows. */
  method HandlePortal(req: Request, decode: seq<byte> -> Option<string>, parse: (seq<byte>, ParserPolicy) -> ParseOutcome)
    returns (xmlPreview: Option<string>, secretDump: Option<string>)
    ensures !HasUpload(req) ==> xmlPreview.None? && secretDump.None?
    ensures HasUpload(req) ==> xmlPreview.Some?
    ensures secretDump != Some("")
    ensures HasUpload(req) ==>
      var data := req.scroll.value.data;
      var preview := RawPreview(decode(data));
      match parse(data, PortalPolicy)
      case Parsed(root) => xmlPreview == Some(preview) && secretDump == Summary(Extract(root))
      case Failed(detail) => xmlPreview == Some(Annotate(preview, detail)) && secretDump.None?
  {
    xmlPreview := None;
    secretDump := None;
    if req.httpMethod == "POST" {
      var f := req.scroll;
      if f.Some? && f.value.filename != "" {
        var data := f.value.data;
        var decoded := decode(data);
        if decoded.Some? {
          xmlPreview := Some(Truncate(decoded.value, PreviewLimit));
        } else {
          xmlPreview := Some(BinaryPlaceholder);
        }
        assert xmlPreview == Some(RawPreview(decoded));

        var outcome := parse(data, PortalPolicy);
        match outcome {
          case Parsed(root) =>
            var name := ChildText(root, NameTag);
            var rank := ChildText(root, RankTag);
            var quote := OrElse(FindText(root, QuoteTag), ChildText(root, MessageTag));
            assert Extract(root) == Fields(name, rank, quote);
            secretDump := ComposeSummary(name, rank, quote);
          case Failed(detail) =>
            xmlPreview := Some(Annotate(OrElse(xmlPreview, ""), detail));
        }
      }
    }
  }

  /** The summary assembly of the handler (app.py:177-181): one labelled line per non-empty value,
      appended in the order Name, Rank, Scroll, and their join, or no summary
      when there is no line. */
  method ComposeSummary(name: string, rank: string, quote: string) returns (secretDump: Option<string>)
    ensures secretDump == Summary(Fields(name, rank, quote))
  {
    var parts: seq<string> := [];
    if name != "" { parts := parts + [NameLabel + name]; }
    if rank != "" { parts := parts + [RankLabel + rank]; }
    if quote != "" { parts := parts + [ScrollLabel + quote]; }
    assert parts == SummaryLines(Fields(name, rank, quote));
    secretDump := if parts != [] then Some(Join(Separator, parts)) else None;
  }

  /** The page's two strings after a failed parse: no summary, and a preview
      that begins with the bounded preview of the decoded upload and ends
      with the parser's error text in the fixed note. */
  lemma FailedUploadShowsDiagnostic(text: string, detail: string)
    ensures var p := Annotate(RawPreview(Some(text)), detail);
      Truncate(text, PreviewLimit) <= p &&
      p[|p| - |detail| - 1..|p| - 1] == detail
  {
  }

  /** A scroll with `name`, `rank` and `quote` children gives the three
      lines in order. */
  lemma FullScrollSummary()
    ensures var root := Element("scroll", None, [
              Element("name", Some("A"), []),
              Element("rank", Some("B"), []),
              Element("quote", Some("C"), [])]);
      Summary(Extract(root)) == Some("Name: A\\nRank: B\\nScroll: C")
  {
    var root := Element("scroll", None, [
      Element("name", Some("A"), []),
      Element("rank", Some("B"), []),
      Element("quote", Some("C"), [])]);
    assert IsFirst(root.children, NameTag, 0);
    assert IsFirst(root.children, RankTag, 1);
    assert IsFirst(root.children, QuoteTag, 2);
    assert Extract(root) == Fields("A", "B", "C");
    SummaryOfABC();
  }

  lemma SummaryOfABC()
    ensures Summary(Fields("A", "B", "C")) == Some("Name: A\\nRank: B\\nScroll: C")
  {
    LinesOfABC();
    JoinOfABC();
  }

  lemma LinesOfABC()
    ensures SummaryLines(Fields("A", "B", "C")) == ["Name: A", "Rank: B", "Scroll: C"]
  {
    assert NameLabel + "A" == "Name: A";
    assert RankLabel + "B" == "Rank: B";
    assert ScrollLabel + "C" == "Scroll: C";
  }

  lemma JoinOfABC()
    ensures Join(Separator, ["Name: A", "Rank: B", "Scroll: C"]) == "Name: A\\nRank: B\\nScroll: C"
  {
    JoinOfThree(Separator, "Name: A", "Rank: B", "Scroll: C");
  }

  /** Without a `quote` child the scroll line comes from `message`; a `name`
      nested below a direct child is not found. */
  lemma MessageStandsInForQuote()
    ensures var root := Element("scroll", None, [
              Element("info", None, [Element("name", Some("A"), [])]),
              Element("message", Some("C"), [])]);
      Summary(Extract(root)) == Some("Scroll: C")
  {
    var root := Element("scroll", None, [
      Element("info", None, [Element("name", Some("A"), [])]),
      Element("message", Some("C"), [])]);
    assert !HasChild(root.children, NameTag);
    assert !HasChild(root.children, RankTag);
    assert !HasChild(root.children, QuoteTag);
    assert IsFirst(root.children, MessageTag, 1);
    var f := Extract(root);
    assert f == Fields("", "", "C");
    assert ScrollLabel + "C" == "Scroll: C";
    assert SummaryLines(f) == ["Scroll: C"];
  }

}
