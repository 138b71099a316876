/** The raw preview of an upload and the note added to it when the upload
    does not parse. */
module Preview {

  import opened Wrappers

  /** The longest preview taken from the decoded text. */
  const PreviewLimit: nat := 2000

  /** The preview used when decoding raises an exception. */
  const BinaryPlaceholder: string := "<binary data>"

  /** The fixed text put between the preview and the parser's error text.
      As in the source, each `\\n` is a backslash followed by `n`, not a newline. */
  const FailureNote: string := "\\n\\n(The portal could not fully bind the scroll.)\\n("

  /** Python's `s[:n]`: the prefix of `s` of length `n`, or all of `s` when
      it is shorter. */
  function Truncate(s: string, n: nat): (r: string)
    ensures r <= s
    ensures |r| == if |s| <= n then |s| else n
  {
    if |s| <= n then s else s[..n]
  }

  /** The preview of an upload, given its decoding (`None` when decoding
      raised): at most `PreviewLimit` characters, a prefix of the decoded text
      and all of it when that is short enough. */
  function RawPreview(decoded: Option<string>): (p: string)
    ensures |p| <= PreviewLimit
    ensures decoded.Some? ==> p <= decoded.value
    ensures decoded.Some? && |decoded.value| <= PreviewLimit ==> p == decoded.value
    ensures decoded.Some? && |decoded.value| > PreviewLimit ==> |p| == PreviewLimit
    ensures decoded.None? ==> p == BinaryPlaceholder
  {
    match decoded
    case Some(text) => Truncate(text, PreviewLimit)
    case None => BinaryPlaceholder
  }

  /** The preview after a failed parse: the preview unchanged, then the fixed
      note, then the parser's error text, then a closing parenthesis. Both the
      preview and the error text can be read back from the result. */
  function Annotate(preview: string, detail: string): (r: string)
    ensures preview <= r
    ensures |r| == |preview| + |FailureNote| + |detail| + 1
    ensures r[|preview|..|preview| + |FailureNote|] == FailureNote
    ensures r[|preview| + |FailureNote|..|r| - 1] == detail
    ensures r[|r| - 1] == ')'
  {
    preview + FailureNote + detail + ")"
  }

  /** The annotation comes after the truncation, so an annotated preview of a
      long upload is longer than the limit. */
  lemma AnnotatedPreviewExceedsLimit(text: string, detail: string)
    requires |text| >= PreviewLimit
    ensures |Annotate(RawPreview(Some(text)), detail)| > PreviewLimit
  {
  }

}
