/**
 * The three tools of the builder's agent route (morph-e2b/app/api/agent/route.ts):
 * `createFile` writes the store, `editFile` merges an edit into the stored
 * code through Morph, `executeCode` sends the stored code to the preview
 * route. Each network call is an abstract reply; the model loop that decides
 * which tool to call is not part of this model.
 */
module AgentTools {
  import opened Wrappers
  import opened Text
  import opened Storage
  import opened PreviewRoute

  /**
   * What a tool returns to the model and to the page:
   * `{ success: true, message, newCode }`, `{ success: false, error }`,
   * a bare `{ error }`, or `{ success: true, message, results: { outputs } }`.
   */
  datatype ToolResult =
    | Saved(message: string, newCode: string)
    | Failed(error: string)
    | Refused(error: string)
    | Executed(message: string, outputs: seq<Output>)

  /** `createFile`: store the content verbatim and hand it back as the new code. */
  method CreateFile(store: AppStorage, filename: string, content: string) returns (r: ToolResult)
    modifies store
    ensures store.code == content
    ensures r == Saved("Successfully created " + filename, content)
  {
    store.SetCode(content);
    r := Saved("Successfully created " + filename, content);
  }

  /** How the merge call to Morph turned out: a non-ok status with its text and body, an exception, or the merged file. */
  datatype MergeReply = MergeNotOk(statusText: string, body: string) | MergeThrew(reason: string) | MergeOk(merged: string)

  const NoFileToEdit := "No existing file to edit. Use createFile first."

  /**
   * `editFile`. With an empty store it fails before any request. Otherwise
   * it sends the stored code and the edit, markers and all, and only a
   * successful merge writes the store; every failure modelled here leaves it
   * as it was (a reply without content is not modelled).
   */
  method EditFile(store: AppStorage, targetFile: string, codeEdit: string, reply: MergeReply)
    returns (r: ToolResult, sent: Option<string>)
    modifies store
    ensures old(store.code) == "" ==> r == Failed(NoFileToEdit) && sent == None
    ensures old(store.code) != "" ==> sent == Some(MergePrompt(old(store.code), codeEdit))
    ensures old(store.code) != "" && reply.MergeNotOk? ==>
              r == Failed("Morph API error: " + reply.statusText + " - " + reply.body)
    ensures old(store.code) != "" && reply.MergeThrew? ==> r == Failed(reply.reason)
    ensures old(store.code) != "" && reply.MergeOk? ==>
              r == Saved("File " + targetFile + " was successfully updated", reply.merged) && store.code == reply.merged
    ensures !r.Saved? ==> store.code == old(store.code)
  {
    var originalContent := store.GetCode();
    if originalContent == "" {
      return Failed(NoFileToEdit), None;
    }
    sent := Some(MergePrompt(originalContent, codeEdit));
    match reply
    case MergeNotOk(statusText, body) =>
      r := Failed("Morph API error: " + statusText + " - " + body);
    case MergeThrew(reason) =>
      r := Failed(reason);
    case MergeOk(merged) =>
      store.SetCode(merged);
      r := Saved("File " + targetFile + " was successfully updated", merged);
  }

  /** The parts of the request URL the endpoint is built from. */
  datatype Url = Url(protocol: string, host: string)

  /** The request the tool sends to the preview route. */
  datatype PreviewRequest = PreviewRequest(endpoint: string, code: string)

  /** How the preview call turned out: a non-ok status with the body text, an exception, or the outputs. */
  datatype PreviewReply = PreviewNotOk(status: nat, text: string) | PreviewThrew(reason: string) | PreviewOk(outputs: seq<Output>)

  const PreviewPath := "/api/e2b"
  const LocalOrigin := "http://localhost:3000"
  const LocalEndpoint := LocalOrigin + PreviewPath

  /**
   * The preview endpoint: from the request URL when there is one, else from
   * the configured public base URL when it is set and non-empty, else the
   * local development server. It always ends in the preview path.
   */
  function Endpoint(url: Option<Url>, envBase: Option<string>): (e: string)
    ensures EndsWith(e, PreviewPath)
    ensures url.Some? ==> e == url.value.protocol + "//" + url.value.host + PreviewPath
    ensures url.None? && Filled(envBase) ==> e == envBase.value + PreviewPath
    ensures url.None? && !Filled(envBase) ==> e == LocalEndpoint
  {
    if url.Some? then
      EndsWithAppend(url.value.protocol + "//" + url.value.host, PreviewPath);
      url.value.protocol + "//" + url.value.host + PreviewPath
    else if Filled(envBase) then
      EndsWithAppend(envBase.value, PreviewPath);
      envBase.value + PreviewPath
    else
      EndsWithAppend(LocalOrigin, PreviewPath);
      LocalEndpoint
  }

  const NoCode := "No code to execute"

  /**
   * `executeCode`. `requestUrl` is `None` when no request URL was given,
   * otherwise the URL parsed, or the message of the exception parsing threw.
   * The store is only read.
   */
  method ExecuteCode(store: AppStorage, requestUrl: Option<Result<Url, string>>, envBase: Option<string>, reply: PreviewReply)
    returns (r: ToolResult, request: Option<PreviewRequest>)
    ensures store.code == "" ==> r == Refused(NoCode) && request == None
    ensures store.code != "" && requestUrl.Some? && requestUrl.value.Failure? ==>
              r == Failed(requestUrl.value.error) && request == None
    ensures store.code != "" && !(requestUrl.Some? && requestUrl.value.Failure?) ==>
              var url := if requestUrl.Some? then Some(requestUrl.value.value) else None;
              && request == Some(PreviewRequest(Endpoint(url, envBase), store.code))
              && (reply.PreviewNotOk? ==> r == Failed("E2B API error: " + NatToString(reply.status) + " - " + reply.text))
              && (reply.PreviewThrew? ==> r == Failed(reply.reason))
              && (reply.PreviewOk? ==> r == Executed("Code executed successfully", reply.outputs))
    ensures request.Some? ==> request.value.code == store.code && EndsWith(request.value.endpoint, PreviewPath)
  {
    var code := store.GetCode();
    if code == "" {
      return Refused(NoCode), None;
    }
    var url: Option<Url> := None;
    if requestUrl.Some? {
      match requestUrl.value
      case Failure(message) =>
        return Failed(message), None;
      case Success(parsed) =>
        url := Some(parsed);
    }
    var apiUrl := Endpoint(url, envBase);
    request := Some(PreviewRequest(apiUrl, code));
    match reply
    case PreviewNotOk(status, text) =>
      r := Failed("E2B API error: " + NatToString(status) + " - " + text);
    case PreviewThrew(reason) =>
      r := Failed(reason);
    case PreviewOk(outputs) =>
      r := Executed("Code executed successfully", outputs);
  }
}
