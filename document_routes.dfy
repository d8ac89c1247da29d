/**
 * The two transformation endpoints of the document comparison demo,
 * document-wide-edits-with-plate/app/api/openai/route.ts and
 * document-wide-edits-with-plate/app/api/morph/route.ts. They differ only in
 * the backend's name, the demo footer, the pacing constants and the shape of
 * the live request, so one model serves both, parameterised by `Backend`.
 *
 * A streamed response is modelled as the steps its stream controller takes
 * (enqueue a chunk, sleep, close, error); `setTimeout` becomes a `Sleep`.
 */
module DocumentRoutes {
  import opened Wrappers
  import opened Text

  datatype Backend = OpenAI | Morph

  /** The JSON request body; a field absent from the JSON is `None`. */
  datatype RouteRequest = RouteRequest(document: Option<string>, transformation: Option<string>, stream: Option<bool>)

  /**
   * What the backend SDK does with a live request: `create` rejects, or it
   * answers. An answer is read as one message (`whole`) when streaming is
   * off, and as the sequence of `delta.content` values (absent ones as `''`)
   * when it is on; `brokeOff` says the iteration threw after those deltas.
   */
  datatype LiveAnswer =
    | Threw
    | Answered(whole: string, deltas: seq<string>, brokeOff: bool)

  /** One step of a response stream's controller. */
  datatype StreamEvent = Enqueue(chunk: string) | Sleep(ms: nat) | Close | Fail

  datatype RouteResponse =
    | JsonError(status: nat, error: string)
      /** A complete `text/plain` body, sent after waiting `delayMs`. */
    | Whole(body: string, delayMs: nat)
      /** A chunked `text/plain` body, as the steps of its controller. */
    | Chunked(events: seq<StreamEvent>)

  /** The live request sent to the backend: model name, user message, stream flag. */
  datatype LiveCall = LiveCall(model: string, userContent: string, stream: bool)

  function Name(b: Backend): string {
    match b
    case OpenAI => "OpenAI"
    case Morph => "Morph"
  }

  const RequiredMessage := "Document and transformation are required"

  function FailureMessage(b: Backend): string {
    "Failed to transform document with " + Name(b)
  }

  /** Per-chunk delay of the demo stream: OpenAI is paced slower than Morph. */
  function StreamPacingMs(b: Backend): nat {
    match b
    case OpenAI => 20
    case Morph => 10
  }

  /** The single delay of the non-streaming demo. */
  function WholeDelayMs(b: Backend): nat {
    match b
    case OpenAI => 2000
    case Morph => 1000
  }

  function LiveModel(b: Backend): string {
    match b
    case OpenAI => "gpt-4"
    case Morph => "morph-v2"
  }

  function DemoHeading(b: Backend): string {
    "# Demo Transformation Applied (" + Name(b) + ")"
  }

  const TransformationLabel := "\n\n**Transformation**: "

  function DemoNote(b: Backend): string {
    "\n\n**Note**: This is a demo transformation since no " + Name(b) + " API key is configured.\n\n"
  }

  function DemoFooter(b: Backend): string {
    match b
    case OpenAI => "\n\n---\n*This document was processed using OpenAI's GPT-4 model*"
    case Morph => "\n\n---\n*This document was processed using Morph's ultra-fast transformation engine (2000+ tokens/sec)*"
  }

  /** Where the transformation starts in the demo text. */
  function TransformationAt(b: Backend): nat {
    |DemoHeading(b)| + |TransformationLabel|
  }

  /** Where the document starts in the demo text. */
  function DocumentAt(b: Backend, transformation: string): nat {
    TransformationAt(b) + |transformation| + |DemoNote(b)|
  }

  /** The synthetic transformation returned when no API key is configured. */
  function DemoText(b: Backend, document: string, transformation: string): (r: string)
    ensures |r| == DocumentAt(b, transformation) + |document| + |DemoFooter(b)|
  {
    DemoHeading(b) + (TransformationLabel + (transformation + (DemoNote(b) + (document + DemoFooter(b)))))
  }

  /** The demo text opens with the demo heading. */
  lemma DemoTextOpens(b: Backend, document: string, transformation: string)
    ensures var r := DemoText(b, document, transformation);
      |DemoHeading(b)| <= |r| && r[..|DemoHeading(b)|] == DemoHeading(b)
  {
  }

  /** The demo text holds the transformation and the document verbatim, each at its fixed place. */
  lemma DemoTextPlaces(b: Backend, document: string, transformation: string)
    ensures var r := DemoText(b, document, transformation);
      && DocumentAt(b, transformation) + |document| <= |r|
      && r[TransformationAt(b)..TransformationAt(b) + |transformation|] == transformation
      && r[DocumentAt(b, transformation)..DocumentAt(b, transformation) + |document|] == document
  {
    LayoutPlaces(DemoText(b, document, transformation),
      DemoHeading(b), TransformationLabel, transformation, DemoNote(b), document, DemoFooter(b),
      TransformationAt(b), DocumentAt(b, transformation));
  }

  /** In six parts laid end to end, the third sits at offset `at` and the fifth at offset `ad`. */
  lemma LayoutPlaces(r: string, h: string, l: string, t: string, n: string, d: string, f: string, at: nat, ad: nat)
    requires r == h + (l + (t + (n + (d + f))))
    requires at == |h| + |l| && ad == at + |t| + |n|
    ensures ad + |d| <= |r|
    ensures r[at..at + |t|] == t
    ensures r[ad..ad + |d|] == d
  {
    assert r == (h + l) + (t + (n + (d + f)));
    assert r == (h + l + t + n) + (d + f);
  }

  const OpenAIIntro := "Please transform this document:\n\n"
  const OpenAIRequestLabel := "\n\nTransformation requested: "

  /**
   * The user message of a live request: OpenAI gets the document after a
   * fixed introduction and the transformation at the end; Morph gets the
   * document and the update in their tags.
   */
  function UserContent(b: Backend, document: string, transformation: string): (r: string)
    ensures b == OpenAI ==>
      && |r| == |OpenAIIntro| + |document| + |OpenAIRequestLabel| + |transformation|
      && r[|OpenAIIntro|..|OpenAIIntro| + |document|] == document
      && r[|r| - |transformation|..] == transformation
    ensures b == OpenAI ==>
      && r[..|OpenAIIntro|] == OpenAIIntro
      && r[|OpenAIIntro| + |document|..|r| - |transformation|] == OpenAIRequestLabel
    ensures b == Morph ==> r == MergePrompt(document, transformation)
    ensures b == Morph ==>
      && |r| == |document| + |transformation| + 31
      && r[6..6 + |document|] == document
      && r[22 + |document|..22 + |document| + |transformation|] == transformation
  {
    match b
    case OpenAI =>
      var tail := OpenAIRequestLabel + transformation;
      var r := OpenAIIntro + (document + tail);
      assert r[|OpenAIIntro| + |document|..] == tail;
      assert tail[..|OpenAIRequestLabel|] == OpenAIRequestLabel;
      r
    case Morph => MergePrompt(document, transformation)
  }

  /** `!document || !transformation` rejects the request. */
  predicate WellFormed(req: RouteRequest): (ok: bool)
    ensures ok <==> req.document.Some? && req.document.value != "" && req.transformation.Some? && req.transformation.value != ""
  {
    Filled(req.document) && Filled(req.transformation)
  }

  /** `stream = false` in the destructuring: an absent flag means no streaming. */
  function StreamFlag(req: RouteRequest): (stream: bool)
    ensures stream <==> req.stream == Some(true)
  {
    req.stream.GetOr(false)
  }

  /** The controller steps for `chunks`: each enqueued, then followed by one delay of `ms`. */
  function Paced(chunks: seq<string>, ms: nat): seq<StreamEvent>
  {
    if chunks == [] then []
    else Paced(chunks[..|chunks| - 1], ms) + [Enqueue(chunks[|chunks| - 1]), Sleep(ms)]
  }

  /** The chunks a controller enqueued, in order. */
  function Enqueued(events: seq<StreamEvent>): seq<string>
  {
    if events == [] then []
    else
      var last := events[|events| - 1];
      Enqueued(events[..|events| - 1]) + (if last.Enqueue? then [last.chunk] else [])
  }

  /** Total time a controller spends in its delays. */
  function DelayMs(events: seq<StreamEvent>): nat
  {
    if events == [] then 0
    else
      var last := events[|events| - 1];
      DelayMs(events[..|events| - 1]) + (if last.Sleep? then last.ms else 0)
  }

  lemma EnqueuedSnoc(s: seq<StreamEvent>, x: StreamEvent)
    ensures Enqueued(s + [x]) == Enqueued(s) + (if x.Enqueue? then [x.chunk] else [])
    ensures DelayMs(s + [x]) == DelayMs(s) + (if x.Sleep? then x.ms else 0)
  {
    assert (s + [x])[..|s|] == s;
  }

  /** Pacing one more chunk enqueues it and waits `ms` once more. */
  lemma PacedStep(init: seq<string>, last: string, ms: nat)
    ensures Enqueued(Paced(init + [last], ms)) == Enqueued(Paced(init, ms)) + [last]
    ensures DelayMs(Paced(init + [last], ms)) == DelayMs(Paced(init, ms)) + ms
  {
    var before := Paced(init, ms);
    assert (init + [last])[..|init|] == init;
    assert Paced(init + [last], ms) == (before + [Enqueue(last)]) + [Sleep(ms)];
    EnqueuedSnoc(before, Enqueue(last));
    EnqueuedSnoc(before + [Enqueue(last)], Sleep(ms));
  }

  /** A paced stream enqueues exactly its chunks, and waits `ms` once per chunk. */
  lemma {:induction false} PacedDelivers(chunks: seq<string>, ms: nat)
    ensures Enqueued(Paced(chunks, ms)) == chunks
    ensures DelayMs(Paced(chunks, ms)) == ms * |chunks|
    decreases |chunks|
  {
    if chunks != [] {
      var init := chunks[..|chunks| - 1];
      var last := chunks[|chunks| - 1];
      assert init + [last] == chunks;
      PacedDelivers(init, ms);
      PacedStep(init, last, ms);
      MulSucc(ms, |init|);
    }
  }

  lemma MulSucc(a: nat, n: nat)
    ensures a * (n + 1) == a * n + a
  {
  }

  /**
   * The demo stream (`for` over `demoResult.split(' ')`): enqueue each
   * word, the first bare and every later one after a single space, sleeping
   * `ms` after each, then close. What it delivers is the text itself.
   */
  method DemoStream(text: string, ms: nat) returns (events: seq<StreamEvent>)
    ensures events == Paced(Chunks(Split(text, ' ')), ms) + [Close]
    ensures Concat(Enqueued(events)) == text
    ensures |Enqueued(events)| == Count(text, ' ') + 1
    ensures DelayMs(events) == ms * (Count(text, ' ') + 1)
  {
    var words := Split(text, ' ');
    events := [];
    for i := 0 to |words|
      invariant events == Paced(Chunks(words)[..i], ms)
    {
      var chunk := if i == 0 then words[i] else " " + words[i];
      assert Chunks(words)[..i + 1][..i] == Chunks(words)[..i];
      events := events + [Enqueue(chunk), Sleep(ms)];
    }
    assert Chunks(words)[..|words|] == Chunks(words);
    DemoStreamDelivers(text, ms);
    events := events + [Close];
  }

  /** The demo events deliver the demo text, one chunk per word, with one delay per chunk. */
  lemma DemoStreamDelivers(text: string, ms: nat)
    ensures Concat(Enqueued(Paced(Chunks(Split(text, ' ')), ms) + [Close])) == text
    ensures |Enqueued(Paced(Chunks(Split(text, ' ')), ms) + [Close])| == Count(text, ' ') + 1
    ensures DelayMs(Paced(Chunks(Split(text, ' ')), ms) + [Close]) == ms * (Count(text, ' ') + 1)
  {
    var words := Split(text, ' ');
    var paced := Paced(Chunks(words), ms);
    PacedDelivers(Chunks(words), ms);
    EnqueuedSnoc(paced, Close);
    assert Enqueued(paced + [Close]) == Chunks(words);
    ChunksConcat(words);
    SplitJoin(text, ' ');
  }

  /** The non-empty deltas, in arrival order. */
  function NonEmpty(deltas: seq<string>): (kept: seq<string>)
    ensures forall i :: 0 <= i < |kept| ==> kept[i] != ""
    ensures forall x :: x in kept <==> x in deltas && x != ""
  {
    if deltas == [] then []
    else
      var last := deltas[|deltas| - 1];
      NonEmpty(deltas[..|deltas| - 1]) + (if last != "" then [last] else [])
  }

  /** Filtering distributes over concatenation, so the kept deltas keep their arrival order. */
  lemma {:induction false} NonEmptyAppend(a: seq<string>, b: seq<string>)
    ensures NonEmpty(a + b) == NonEmpty(a) + NonEmpty(b)
    decreases |b|
  {
    if b != [] {
      var init := b[..|b| - 1];
      var last := b[|b| - 1];
      assert (a + b)[..|a + b| - 1] == a + init;
      NonEmptyAppend(a, init);
    } else {
      assert a + b == a;
    }
  }

  /** Dropping the empty deltas does not change the text they make up. */
  lemma {:induction false} NonEmptyKeepsText(deltas: seq<string>)
    ensures Concat(NonEmpty(deltas)) == Concat(deltas)
    decreases |deltas|
  {
    if deltas != [] {
      var init := deltas[..|deltas| - 1];
      var last := deltas[|deltas| - 1];
      NonEmptyKeepsText(init);
      ConcatAppend(NonEmpty(init), if last != "" then [last] else []);
      ConcatAppend(init, [last]);
      ConcatSingle(last);
      assert init + [last] == deltas;
    }
  }

  function Enqueues(chunks: seq<string>): (events: seq<StreamEvent>)
    ensures Enqueued(events) == chunks
    ensures DelayMs(events) == 0
  {
    if chunks == [] then []
    else
      var init := Enqueues(chunks[..|chunks| - 1]);
      var r := init + [Enqueue(chunks[|chunks| - 1])];
      assert r[..|r| - 1] == init;
      assert chunks[..|chunks| - 1] + [chunks[|chunks| - 1]] == chunks;
      r
  }

  /**
   * The live stream (`for await` over the SDK's chunks): enqueue each
   * non-empty delta, in order, with no delay; close at the end, or error the
   * stream if the iteration threw.
   */
  method ForwardDeltas(deltas: seq<string>, brokeOff: bool) returns (events: seq<StreamEvent>)
    ensures events == Enqueues(NonEmpty(deltas)) + [if brokeOff then Fail else Close]
    ensures Enqueued(events) == NonEmpty(deltas)
    ensures Concat(Enqueued(events)) == Concat(deltas)
    ensures DelayMs(events) == 0
  {
    events := [];
    for i := 0 to |deltas|
      invariant events == Enqueues(NonEmpty(deltas[..i]))
    {
      var content := deltas[i];
      assert deltas[..i + 1][..i] == deltas[..i];
      ghost var kept := NonEmpty(deltas[..i]);
      if content != "" {
        assert NonEmpty(deltas[..i + 1]) == kept + [content];
        assert (kept + [content])[..|kept|] == kept;
        events := events + [Enqueue(content)];
      } else {
        assert NonEmpty(deltas[..i + 1]) == kept;
      }
    }
    assert deltas[..|deltas|] == deltas;
    var end: StreamEvent := if brokeOff then Fail else Close;
    EnqueuedSnoc(Enqueues(NonEmpty(deltas)), end);
    NonEmptyKeepsText(deltas);
    events := events + [end];
  }

  /** The demo answer: the demo text paced as a stream, or as one body after a single delay. */
  method DemoReply(b: Backend, document: string, transformation: string, stream: bool) returns (response: RouteResponse)
    ensures var text := DemoText(b, document, transformation);
      && (stream ==> response == Chunked(Paced(Chunks(Split(text, ' ')), StreamPacingMs(b)) + [Close]))
      && (!stream ==> response == Whole(text, WholeDelayMs(b)))
  {
    var text := DemoText(b, document, transformation);
    if stream {
      var events := DemoStream(text, StreamPacingMs(b));
      response := Chunked(events);
    } else {
      response := Whole(text, WholeDelayMs(b));
    }
  }

  /** The live answer relayed: the non-empty deltas as a stream, or the whole text; a thrown error is 500. */
  method LiveReply(b: Backend, live: LiveAnswer, stream: bool) returns (response: RouteResponse)
    ensures live.Threw? ==> response == JsonError(500, FailureMessage(b))
    ensures live.Answered? && stream ==>
      response == Chunked(Enqueues(NonEmpty(live.deltas)) + [if live.brokeOff then Fail else Close])
    ensures live.Answered? && !stream ==> response == Whole(live.whole, 0)
  {
    match live
    case Threw =>
      response := JsonError(500, FailureMessage(b));
    case Answered(whole, deltas, brokeOff) =>
      if stream {
        var events := ForwardDeltas(deltas, brokeOff);
        response := Chunked(events);
      } else {
        response := Whole(whole, 0);
      }
  }

  /**
   * `POST`: reject a malformed body (500) or a missing or empty document or
   * transformation (400) before anything else; without an API key answer with
   * the demo text, paced as a stream or as one body after a single delay;
   * otherwise make the live request and relay its answer, and turn a thrown
   * error into 500 with the backend's fixed message.
   */
  method Post(b: Backend, body: Option<RouteRequest>, apiKey: Option<string>, live: LiveAnswer)
    returns (response: RouteResponse, call: Option<LiveCall>)
    ensures body.None? ==> response == JsonError(500, FailureMessage(b)) && call == None
    ensures body.Some? && !WellFormed(body.value) ==> response == JsonError(400, RequiredMessage) && call == None
    ensures body.Some? && WellFormed(body.value) && !Filled(apiKey) ==>
      var req := body.value;
      var text := DemoText(b, req.document.value, req.transformation.value);
      && call == None
      && (StreamFlag(req) ==> response == Chunked(Paced(Chunks(Split(text, ' ')), StreamPacingMs(b)) + [Close]))
      && (!StreamFlag(req) ==> response == Whole(text, WholeDelayMs(b)))
    ensures body.Some? && WellFormed(body.value) && Filled(apiKey) ==>
      var req := body.value;
      && call == Some(LiveCall(LiveModel(b), UserContent(b, req.document.value, req.transformation.value), StreamFlag(req)))
      && (live.Threw? ==> response == JsonError(500, FailureMessage(b)))
      && (live.Answered? && StreamFlag(req) ==>
            response == Chunked(Enqueues(NonEmpty(live.deltas)) + [if live.brokeOff then Fail else Close]))
      && (live.Answered? && !StreamFlag(req) ==> response == Whole(live.whole, 0))
  {
    call := None;
    if body.None? {
      return JsonError(500, FailureMessage(b)), None;
    }
    var req := body.value;
    if !Filled(req.document) || !Filled(req.transformation) {
      return JsonError(400, RequiredMessage), None;
    }
    var document, transformation := req.document.value, req.transformation.value;
    var stream := StreamFlag(req);
    if !Filled(apiKey) {
      response := DemoReply(b, document, transformation, stream);
      return;
    }
    call := Some(LiveCall(LiveModel(b), UserContent(b, document, transformation), stream));
    response := LiveReply(b, live, stream);
  }
}
