/**
 * The comparison page of document-wide-edits-with-plate/app/page.tsx: one
 * click sends the same document and prompt to both backends with a shared
 * start time, streams each answer into its own panel, falls back once to a
 * whole-body request when streaming fails, and records the elapsed time.
 *
 * React state setters become methods of `Panel`; `Date.now()` readings are
 * parameters; each network answer is an abstract `StreamReply` or
 * `WholeReply`. `Promise.all` runs the OpenAI run and then the Morph run: the
 * two share nothing but the start time, so the order does not matter.
 */
module Comparison {
  import opened Wrappers
  import opened Text
  import opened DocumentRoutes

  /** An entry of the transformation catalog (the catalog's content is not part of this model). */
  datatype Transform = Transform(key: string, prompt: string)

  /** `DOCUMENT_TRANSFORMS.find(t => t.key === key)`: the first entry with that key. */
  function Find(catalog: seq<Transform>, key: string): (r: Option<Transform>)
    ensures r.None? <==> forall i :: 0 <= i < |catalog| ==> catalog[i].key != key
    ensures r.Some? ==> exists i :: 0 <= i < |catalog| && catalog[i] == r.value && r.value.key == key &&
                                    forall j :: 0 <= j < i ==> catalog[j].key != key
  {
    if catalog == [] then None
    else if catalog[0].key == key then Some(catalog[0])
    else Find(catalog[1..], key)
  }

  /**
   * How the streaming fetch turned out: a non-ok status, a body without a
   * reader, or a body read as decoded chunks, `broken` when a read threw
   * after those chunks.
   */
  datatype StreamReply = NotOk(status: nat) | NoReader | Body(chunks: seq<string>, broken: bool)

  /** How the non-streaming fallback fetch turned out. */
  datatype WholeReply = WholeFailed | WholeOk(text: string)

  /** What one backend's run consumes: both replies and the clock readings at the end of the stream and of the fallback. */
  datatype BackendInputs = BackendInputs(stream: StreamReply, fallback: WholeReply, streamEnd: int, fallbackEnd: int)

  /** A request the page sends to a backend route. */
  datatype Request = Request(backend: Backend, document: string, transformation: string, stream: bool)

  /** What a panel shows: its content and its time (`null` is `None`). */
  datatype PanelView = PanelView(content: string, time: Option<int>)

  /** Any failure of the streaming attempt: non-ok status, no reader, or a read that threw. */
  predicate StreamFails(r: StreamReply) {
    !r.Body? || r.broken
  }

  /** The values published while streaming: the accumulator after each chunk. */
  function Accumulations(chunks: seq<string>): (acc: seq<string>)
    ensures |acc| == |chunks|
  {
    if chunks == [] then [] else Accumulations(chunks[..|chunks| - 1]) + [Concat(chunks)]
  }

  /** The fallback: whole text and elapsed time on success; on failure the panel is left alone. */
  function AfterFallback(v: PanelView, reply: WholeReply, start: int, end: int): PanelView {
    match reply
    case WholeOk(text) => PanelView(text, Some(end - start))
    case WholeFailed => v
  }

  /**
   * A panel after one backend's run. A clean stream leaves the concatenated
   * chunks and `end - start`; a failed one keeps whatever was streamed and
   * then takes the fallback's outcome.
   */
  function AfterRun(v: PanelView, input: BackendInputs, start: int): PanelView {
    match input.stream
    case Body(chunks, broken) =>
      var streamed := PanelView(if chunks == [] then v.content else Concat(chunks), v.time);
      if broken then AfterFallback(streamed, input.fallback, start, input.fallbackEnd)
      else PanelView(streamed.content, Some(input.streamEnd - start))
    case _ => AfterFallback(v, input.fallback, start, input.fallbackEnd)
  }

  /** Every value a run passes to `setContent`, in order. */
  function Published(input: BackendInputs): seq<string> {
    (if input.stream.Body? then Accumulations(input.stream.chunks) else []) +
    (if StreamFails(input.stream) && input.fallback.WholeOk? then [input.fallback.text] else [])
  }

  /** The requests of one run: the streaming one, and one non-streaming retry exactly when streaming failed. */
  function RunRequests(b: Backend, document: string, prompt: string, input: BackendInputs): seq<Request> {
    [Request(b, document, prompt, true)] + (if StreamFails(input.stream) then [Request(b, document, prompt, false)] else [])
  }

  /**
   * Successive published values extend each other: the first is the first
   * chunk, each next one is the previous with the next chunk appended, and
   * the last is the concatenation of all chunks.
   */
  lemma {:induction false} AccumulationsExtend(chunks: seq<string>)
    ensures chunks != [] ==> Accumulations(chunks)[0] == chunks[0]
    ensures chunks != [] ==> Accumulations(chunks)[|chunks| - 1] == Concat(chunks)
    ensures forall i :: 0 <= i < |chunks| - 1 ==> Accumulations(chunks)[i + 1] == Accumulations(chunks)[i] + chunks[i + 1]
    decreases |chunks|
  {
    if chunks != [] {
      var init := chunks[..|chunks| - 1];
      var last := chunks[|chunks| - 1];
      var acc := Accumulations(chunks);
      AccumulationsExtend(init);
      assert acc == Accumulations(init) + [Concat(chunks)];
      ConcatAppend(init, [last]);
      ConcatSingle(last);
      assert init + [last] == chunks;
      if |chunks| == 1 {
        ConcatSingle(chunks[0]);
        assert chunks == [chunks[0]];
      } else {
        assert acc[0] == Accumulations(init)[0] == init[0];
        assert acc[|chunks| - 2] == Concat(init);
      }
    }
  }

  /** A React state pair for one backend: the panel's content and time setters. */
  class Panel {
    var content: string
    var time: Option<int>
    /** Every value passed to the content setter so far, in order. */
    ghost var published: seq<string>

    constructor (initial: string)
      ensures content == initial && time == None && published == []
    {
      content := initial;
      time := None;
      published := [];
    }

    function View(): PanelView
      reads this
    {
      PanelView(content, time)
    }

    method SetContent(s: string)
      modifies this
      ensures content == s && time == old(time)
      ensures published == old(published) + [s]
    {
      content := s;
      published := published + [s];
    }

    method SetTime(t: Option<int>)
      modifies this
      ensures time == t && content == old(content) && published == old(published)
    {
      time := t;
    }
  }

  /**
   * `transformWithOpenAI` / `transformWithMorph`: one whole-body request;
   * on success publish the text, then the time since the shared start.
   */
  method TransformWhole(b: Backend, document: string, prompt: string, panel: Panel, start: int, reply: WholeReply, end: int)
    returns (request: Request)
    modifies panel
    ensures request == Request(b, document, prompt, false)
    ensures panel.View() == AfterFallback(old(panel.View()), reply, start, end)
    ensures panel.published == old(panel.published) + (if reply.WholeOk? then [reply.text] else [])
  {
    request := Request(b, document, prompt, false);
    match reply
    case WholeOk(text) =>
      panel.SetContent(text);
      panel.SetTime(Some(end - start));
    case WholeFailed =>
  }

  /**
   * The reading loop: append each chunk to the accumulator and publish the
   * accumulated text; the time is not touched.
   */
  method ReadChunks(panel: Panel, chunks: seq<string>)
    modifies panel
    ensures panel.content == if chunks == [] then old(panel.content) else Concat(chunks)
    ensures panel.time == old(panel.time)
    ensures panel.published == old(panel.published) + Accumulations(chunks)
  {
    var accumulated := "";
    for i := 0 to |chunks|
      invariant accumulated == Concat(chunks[..i])
      invariant panel.content == if i == 0 then old(panel.content) else accumulated
      invariant panel.time == old(panel.time)
      invariant panel.published == old(panel.published) + Accumulations(chunks[..i])
    {
      assert chunks[..i + 1][..i] == chunks[..i];
      ConcatAppend(chunks[..i], [chunks[i]]);
      ConcatSingle(chunks[i]);
      assert chunks[..i] + [chunks[i]] == chunks[..i + 1];
      accumulated := accumulated + chunks[i];
      panel.SetContent(accumulated);
    }
    assert chunks[..|chunks|] == chunks;
  }

  /**
   * `transformWithOpenAIStreaming` / `transformWithMorphStreaming`: read the
   * stream chunk by chunk; at the clean end record the time since the shared
   * start; on any failure fall back once.
   */
  method TransformStreaming(b: Backend, document: string, prompt: string, panel: Panel, start: int, input: BackendInputs)
    returns (requests: seq<Request>)
    modifies panel
    ensures requests == RunRequests(b, document, prompt, input)
    ensures panel.View() == AfterRun(old(panel.View()), input, start)
    ensures panel.published == old(panel.published) + Published(input)
  {
    requests := [Request(b, document, prompt, true)];
    var failed := true;
    if input.stream.Body? {
      ReadChunks(panel, input.stream.chunks);
      failed := input.stream.broken;
      if !failed {
        panel.SetTime(Some(input.streamEnd - start));
      }
    }
    if failed {
      var retry := TransformWhole(b, document, prompt, panel, start, input.fallback, input.fallbackEnd);
      requests := requests + [retry];
    }
  }

  /** How the page's fetch reads a route's answer as a stream. */
  function Receive(response: RouteResponse): (reply: StreamReply)
    ensures response.JsonError? <==> reply.NotOk?
    ensures response.JsonError? ==> reply.status == response.status
    ensures !reply.NoReader?
    ensures response.Whole? ==> reply.Body? && Concat(reply.chunks) == response.body && !reply.broken
    ensures response.Chunked? ==>
      && reply.Body? && reply.chunks == Enqueued(response.events)
      && (reply.broken <==> response.events != [] && response.events[|response.events| - 1] == Fail)
  {
    ConcatSingle(if response.Whole? then response.body else "");
    match response
    case JsonError(status, _) => NotOk(status)
    case Whole(body, _) => Body([body], false)
    case Chunked(events) => Body(Enqueued(events), events != [] && events[|events| - 1] == Fail)
  }

  /** A stream that ends cleanly after some chunks leaves their concatenation and the time to the end of the stream. */
  lemma CleanStreamShowsAll(v: PanelView, chunks: seq<string>, fallback: WholeReply, start: int, streamEnd: int, fallbackEnd: int)
    requires chunks != []
    ensures AfterRun(v, BackendInputs(Body(chunks, false), fallback, streamEnd, fallbackEnd), start)
            == PanelView(Concat(chunks), Some(streamEnd - start))
  {
  }

  /**
   * Against a demo route streaming `text` (the demo text, `DemoText`), a run
   * shows exactly that text, timed from the shared start to the end of the
   * stream, whatever the panel showed before and whatever the pacing.
   */
  lemma DemoRunShowsText(text: string, ms: nat, v: PanelView, fallback: WholeReply, start: int, streamEnd: int, fallbackEnd: int)
    ensures var response := Chunked(Paced(Chunks(Split(text, ' ')), ms) + [Close]);
            var input := BackendInputs(Receive(response), fallback, streamEnd, fallbackEnd);
            && !StreamFails(input.stream)
            && AfterRun(v, input, start) == PanelView(text, Some(streamEnd - start))
  {
    DemoStreamDelivers(text, ms);
  }

  /**
   * Against a live streaming route: when the provider's stream ends cleanly
   * and carried some text, the panel shows all of it, timed to the end of
   * the stream; when it broke off, the fallback decides the panel.
   */
  lemma LiveRunShowsText(deltas: seq<string>, brokeOff: bool, v: PanelView, fallback: WholeReply, start: int, streamEnd: int, fallbackEnd: int)
    ensures var response := Chunked(Enqueues(NonEmpty(deltas)) + [if brokeOff then Fail else Close]);
            var input := BackendInputs(Receive(response), fallback, streamEnd, fallbackEnd);
            && (StreamFails(input.stream) <==> brokeOff)
            && (!brokeOff && Concat(deltas) != "" ==> AfterRun(v, input, start) == PanelView(Concat(deltas), Some(streamEnd - start)))
            && (brokeOff && fallback.WholeOk? ==> AfterRun(v, input, start) == PanelView(fallback.text, Some(fallbackEnd - start)))
  {
    var kept := NonEmpty(deltas);
    var last := if brokeOff then Fail else Close;
    var events := Enqueues(kept) + [last];
    EnqueuedSnoc(Enqueues(kept), last);
    assert Enqueued(events) == kept;
    assert events[|events| - 1] == last;
    assert Receive(Chunked(events)) == Body(kept, brokeOff);
    NonEmptyKeepsText(deltas);
    if !brokeOff && Concat(deltas) != "" {
      CleanStreamShowsAll(v, kept, fallback, start, streamEnd, fallbackEnd);
    }
  }

  class ComparisonPage {
    /** `DEMO_CONTENT`, the document both backends transform. */
    const demoContent: string
    /** `DOCUMENT_TRANSFORMS`, the catalog of prompts. */
    const catalog: seq<Transform>
    const openAI: Panel
    const morph: Panel
    var isTransforming: bool

    ghost predicate Valid()
      reads this
    {
      openAI != morph
    }

    constructor (demoContent: string, catalog: seq<Transform>)
      ensures Valid() && fresh(openAI) && fresh(morph)
      ensures this.demoContent == demoContent && this.catalog == catalog
      ensures openAI.View() == PanelView(demoContent, None) && morph.View() == PanelView(demoContent, None)
      ensures !isTransforming
    {
      this.demoContent := demoContent;
      this.catalog := catalog;
      openAI := new Panel(demoContent);
      morph := new Panel(demoContent);
      isTransforming := false;
    }

    /**
     * `handleTransformation`. While a comparison is in flight it does nothing.
     * Otherwise it clears both panels and times; an unknown key then ends
     * the call with no request. A known key runs both backends against the
     * one start time `now`: each panel ends as a function of its own
     * backend's inputs and `now` only, so a failure on one side cannot change
     * the other. The in-flight flag is off once both runs have settled.
     */
    method HandleTransformation(key: string, now: int, oa: BackendInputs, mo: BackendInputs)
      returns (requests: seq<Request>)
      requires Valid()
      modifies this, openAI, morph
      ensures Valid()
      ensures old(isTransforming) ==> requests == [] && unchanged(this, openAI, morph)
      ensures !old(isTransforming) ==> !isTransforming
      ensures !old(isTransforming) && Find(catalog, key).None? ==>
        && requests == []
        && openAI.View() == PanelView("", None) && morph.View() == PanelView("", None)
      ensures !old(isTransforming) && Find(catalog, key).Some? ==>
        var prompt := Find(catalog, key).value.prompt;
        && requests == RunRequests(OpenAI, demoContent, prompt, oa) + RunRequests(Morph, demoContent, prompt, mo)
        && openAI.View() == AfterRun(PanelView("", None), oa, now)
        && morph.View() == AfterRun(PanelView("", None), mo, now)
        && openAI.published == old(openAI.published) + [""] + Published(oa)
        && morph.published == old(morph.published) + [""] + Published(mo)
    {
      if isTransforming {
        return [];
      }
      isTransforming := true;
      openAI.SetTime(None);
      morph.SetTime(None);
      openAI.SetContent("");
      morph.SetContent("");
      var transformation := Find(catalog, key);
      if transformation.None? {
        isTransforming := false;
        return [];
      }
      var sharedStartTime := now;
      var prompt := transformation.value.prompt;
      var fromOpenAI := TransformStreaming(OpenAI, demoContent, prompt, openAI, sharedStartTime, oa);
      var fromMorph := TransformStreaming(Morph, demoContent, prompt, morph, sharedStartTime, mo);
      requests := fromOpenAI + fromMorph;
      isTransforming := false;
    }

    /** `handleReset`: both panels back to the demo content, both times cleared. */
    method HandleReset()
      requires Valid()
      modifies openAI, morph
      ensures openAI.View() == PanelView(demoContent, None)
      ensures morph.View() == PanelView(demoContent, None)
    {
      openAI.SetContent(demoContent);
      morph.SetContent(demoContent);
      openAI.SetTime(None);
      morph.SetTime(None);
    }
  }
}
