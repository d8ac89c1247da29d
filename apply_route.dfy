/**
 * The code-apply route of morph-e2b/app/api/morph/route.ts: validate the two
 * fields, require the API key, send one merge request to Morph and shape its
 * answer. The upstream call is an abstract reply.
 */
module ApplyRoute {
  import opened Wrappers
  import opened Text

  /** The JSON body: `originalCode` and `updateInstructions` (absent as `None`). */
  datatype ApplyBody = ApplyBody(originalCode: Option<string>, updateInstructions: Option<string>)

  /**
   * What the upstream call gives: a non-ok status with the body's
   * `error.message` if any, the first choice's content with the reported
   * `usage.tokens_per_second` if any, or an exception with its message.
   */
  datatype UpstreamReply =
    | UpstreamNotOk(message: Option<string>)
    | UpstreamOk(content: string, tokensPerSecond: Option<int>)
    | UpstreamThrew(reason: string)

  datatype ApplyResponse = Transformed(transformedCode: string, tokensPerSecond: int) | ApplyError(status: nat, error: string)

  /** The response and the content of the request sent upstream, if one was sent. */
  datatype Handled = Handled(response: ApplyResponse, sent: Option<string>)

  const MissingFields := "Missing required fields"
  const NoApiKey := "Morph API key is not configured"
  const RequestFailed := "Morph API request failed"
  const DefaultTokensPerSecond := 4500

  /** The separator between the code and the instructions: newline, space, middle dot, space. */
  const Separator := "\n \U{00B7} "

  /** The message content: the code, the separator, then the instructions, each verbatim. */
  function ApplyContent(original: string, instructions: string): (r: string)
    ensures |r| == |original| + 4 + |instructions|
    ensures r[..|original|] == original
    ensures r[|original|..|original| + 4] == Separator
    ensures r[|original| + 4..] == instructions
  {
    original + Separator + instructions
  }

  /** `data.usage?.tokens_per_second || 4500`: an absent or zero rate becomes the default. */
  function Rate(reported: Option<int>): (rate: int)
    ensures rate != 0
    ensures reported.Some? && reported.value != 0 ==> rate == reported.value
    ensures !(reported.Some? && reported.value != 0) ==> rate == DefaultTokensPerSecond
  {
    if reported.Some? && reported.value != 0 then reported.value else DefaultTokensPerSecond
  }

  /**
   * `POST`. A body that cannot be read answers 500 with the exception's
   * message; a missing or empty field answers 400; a missing key answers 500
   * before any request; otherwise one request is sent and its outcome shaped.
   */
  function Post(body: Result<ApplyBody, string>, apiKey: Option<string>, reply: UpstreamReply): (h: Handled)
    ensures body.Failure? ==> h == Handled(ApplyError(500, body.error), None)
    ensures body.Success? && !(Filled(body.value.originalCode) && Filled(body.value.updateInstructions)) ==>
              h == Handled(ApplyError(400, MissingFields), None)
    ensures body.Success? && Filled(body.value.originalCode) && Filled(body.value.updateInstructions) && !Filled(apiKey) ==>
              h == Handled(ApplyError(500, NoApiKey), None)
    ensures h.sent.Some? <==> body.Success? && Filled(body.value.originalCode) && Filled(body.value.updateInstructions) && Filled(apiKey)
    ensures h.sent.Some? ==> h.sent.value == ApplyContent(body.value.originalCode.value, body.value.updateInstructions.value)
    ensures h.sent.Some? && reply.UpstreamNotOk? ==>
              h.response == ApplyError(500, if Filled(reply.message) then reply.message.value else RequestFailed)
    ensures h.sent.Some? && reply.UpstreamThrew? ==> h.response == ApplyError(500, reply.reason)
    ensures h.sent.Some? && reply.UpstreamOk? ==>
              h.response == Transformed(reply.content, Rate(reply.tokensPerSecond))
    ensures h.response.Transformed? ==> h.sent.Some? && h.response.tokensPerSecond != 0
  {
    match body
    case Failure(message) => Handled(ApplyError(500, message), None)
    case Success(fields) =>
      if !Filled(fields.originalCode) || !Filled(fields.updateInstructions) then
        Handled(ApplyError(400, MissingFields), None)
      else if !Filled(apiKey) then
        Handled(ApplyError(500, NoApiKey), None)
      else
        var sent := Some(ApplyContent(fields.originalCode.value, fields.updateInstructions.value));
        match reply
        case UpstreamNotOk(message) =>
          Handled(ApplyError(500, if Filled(message) then message.value else RequestFailed), sent)
        case UpstreamThrew(reason) => Handled(ApplyError(500, reason), sent)
        case UpstreamOk(content, rate) => Handled(Transformed(content, Rate(rate)), sent)
  }
}
