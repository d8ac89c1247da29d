/**
 * The preview route of morph-e2b/app/api/e2b/route.ts: it returns the code
 * as a single HTML output for the page's iframe, without executing it.
 */
module PreviewRoute {
  import opened Wrappers
  import opened Text

  /** One execution output: its `type` and its `html`. */
  datatype Output = Output(kind: string, html: string)

  /** `{ success: true, results: { outputs } }`, or `{ error }` with a status. */
  datatype PreviewResponse = Rendered(outputs: seq<Output>) | PreviewError(status: nat, error: string)

  const CodeRequired := "Code is required"

  /**
   * `POST`. The body is the `code` field (absent as `None`), or the message of
   * the exception thrown while reading the JSON body.
   */
  function Post(body: Result<Option<string>, string>): (r: PreviewResponse)
    ensures body.Failure? ==> r == PreviewError(500, body.error)
    ensures body.Success? && !Filled(body.value) ==> r == PreviewError(400, CodeRequired)
    ensures body.Success? && Filled(body.value) ==>
              r.Rendered? && |r.outputs| == 1 && r.outputs[0].kind == "html" && r.outputs[0].html == body.value.value
  {
    match body
    case Failure(message) => PreviewError(500, message)
    case Success(code) =>
      if !Filled(code) then PreviewError(400, CodeRequired)
      else Rendered([Output("html", code.value)])
  }
}
