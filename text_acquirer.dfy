/**
 * Text acquisition (downloadText in index.js): build the extracted-text URL for the
 * file version, fetch it, tokenise what came back, and treat an empty token sequence
 * as "extraction not ready yet".
 */
module TextAcquirer {
  import opened SkillTypes

  const VERSIONS_SEGMENT := "/versions/"
  const EXTRACTED_TEXT_SEGMENT := "/representations/extracted_text/content/?access_token="

  /**
   * The extracted-text URL: the fields are spliced in verbatim, nothing is escaped.
   * The url starts with the endpoint, ends with the access token, and each field sits
   * at the offset fixed by the lengths of what precedes it.
   */
  function DownloadUrl(endpoint: string, ctx: FileContext): (url: string)
    ensures |url| == |endpoint| + 1 + |ctx.fileId| + |VERSIONS_SEGMENT| + |ctx.fileVersionId|
                     + |EXTRACTED_TEXT_SEGMENT| + |ctx.accessToken|
    ensures url[..|endpoint|] == endpoint
    ensures url[|endpoint|] == '/'
    ensures var f := |endpoint| + 1;
      url[f..f + |ctx.fileId|] == ctx.fileId
    ensures var v := |endpoint| + 1 + |ctx.fileId| + |VERSIONS_SEGMENT|;
      url[v - |VERSIONS_SEGMENT|..v] == VERSIONS_SEGMENT && url[v..v + |ctx.fileVersionId|] == ctx.fileVersionId
    ensures url[|url| - |ctx.accessToken|..] == ctx.accessToken
    ensures url[|url| - |ctx.accessToken| - |EXTRACTED_TEXT_SEGMENT|..|url| - |ctx.accessToken|] == EXTRACTED_TEXT_SEGMENT
  {
    endpoint + "/" + ctx.fileId + VERSIONS_SEGMENT + ctx.fileVersionId + EXTRACTED_TEXT_SEGMENT + ctx.accessToken
  }

  /**
   * Because nothing is escaped, two different (endpoint, file id) pairs can name the
   * same URL: a '/' may move between the endpoint and the file id.
   */
  lemma DownloadUrlAmbiguous()
    ensures exists e1: string, e2: string, c1: FileContext, c2: FileContext ::
      (e1, c1) != (e2, c2) && DownloadUrl(e1, c1) == DownloadUrl(e2, c2)
  {
    var c1 := FileContext("b/c", "v", "t");
    var c2 := FileContext("c", "v", "t");
    assert "a" + "/" + "b/c" == "a/b" + "/" + "c";
    assert DownloadUrl("a", c1) == DownloadUrl("a/b", c2);
    assert ("a", c1) != ("a/b", c2);
  }

  /** Why acquisition fails. */
  datatype AcquireError = NotReady | TransportFailure

  /** The text and its tokens, as downloadText leaves them. */
  datatype Acquired = Acquired(text: string, encoded: seq<Token>)

  /**
   * Fetch the extracted text and tokenise it. A transport failure propagates; a text
   * that encodes to zero tokens is NotReady rather than an empty document.
   */
  function Acquire(endpoint: string, ctx: FileContext, fetch: string -> Fetched, encode: string -> seq<Token>)
    : (r: Result<Acquired, AcquireError>)
    ensures r == Err(TransportFailure) <==> fetch(DownloadUrl(endpoint, ctx)).FetchFailed?
    ensures r == Err(NotReady) <==>
      fetch(DownloadUrl(endpoint, ctx)).Fetched? && encode(fetch(DownloadUrl(endpoint, ctx)).data) == []
    ensures r.Ok? ==>
      fetch(DownloadUrl(endpoint, ctx)) == Fetched(r.value.text) &&
      r.value.encoded == encode(r.value.text) && |r.value.encoded| > 0
  {
    match fetch(DownloadUrl(endpoint, ctx))
    case FetchFailed => Err(TransportFailure)
    case Fetched(data) =>
      var encoded := encode(data);
      if |encoded| == 0 then Err(NotReady) else Ok(Acquired(data, encoded))
  }
}
