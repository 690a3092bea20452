/** The chat panel's submit handler: one user query, answered from the token stream when it
    can be read to its end, and from one synchronous fallback request when opening or reading
    the stream fails. The network is replaced by its observable results: the stream either
    cannot be opened, or delivers a list of already-decoded text chunks and then ends cleanly
    or with a read error; the fallback request either answers or fails. */
module ChatSession {
  import opened Wrappers
  import opened Text
  import opened EventLines
  import opened StreamModel

  datatype StreamEnd = CleanEnd | ReadError

  datatype StreamResponse = OpenFailed | Opened(chunks: seq<string>, end: StreamEnd)

  datatype FallbackResult = FallbackOk(answer: string, sources: seq<Source>) | FallbackFailed

  /** The requests the handler sends: the stream request and the fallback request. */
  datatype Request = StreamQuery(query: string, limit: nat) | FallbackQuery(query: string, limit: nat)

  const QueryLimit: nat := 5

  const Apology: string :=
    "Sorry, I encountered an error. Please make sure the backend is running and your OpenAI API key is configured."

  /** A submission goes ahead exactly for input that is not whitespace only, and only while
      no other query is in flight. */
  predicate Accepts(input: string, isLoading: bool): (b: bool)
    ensures b <==> !AllWhitespace(input) && !isLoading
  {
    TrimEmptyIff(input);
    Trim(input) != [] && !isLoading
  }

  /** The message committed by the fallback path. */
  function FallbackMessage(f: FallbackResult): (m: Message)
    ensures m.role == Assistant
    ensures f.FallbackOk? ==> m.content == f.answer && m.sources == f.sources
    ensures f.FallbackFailed? ==> m.content == Apology && m.sources == []
  {
    match f
    case FallbackOk(answer, sources) => Message(Assistant, answer, sources)
    case FallbackFailed => Message(Assistant, Apology, [])
  }

  /** An exception escapes the stream path: opening failed, or a read failed mid-stream. */
  predicate StreamFails(r: StreamResponse) {
    r.OpenFailed? || r.end == ReadError
  }

  /** The read loop's final progress (nothing was read when the stream could not be opened). */
  function StreamProgress(decode: string -> Option<Event>, r: StreamResponse): Progress {
    match r
    case OpenFailed => Start
    case Opened(chunks, _) => RunChunks(decode, Start, chunks)
  }

  /** The assistant messages an accepted submission appends after the user message. */
  function Appended(decode: string -> Option<Event>, r: StreamResponse, f: FallbackResult): seq<Message> {
    StreamProgress(decode, r).committed + (if StreamFails(r) then [FallbackMessage(f)] else [])
  }

  /** The requests an accepted submission sends. */
  function Requests(query: string, r: StreamResponse): seq<Request> {
    [StreamQuery(query, QueryLimit)] + (if StreamFails(r) then [FallbackQuery(query, QueryLimit)] else [])
  }

  class ChatPanel {
    var messages: seq<Message>
    var input: string
    var isLoading: bool
    var streamingContent: string

    constructor ()
      ensures messages == [] && input == "" && !isLoading && streamingContent == ""
    {
      messages, input, isLoading, streamingContent := [], "", false, "";
    }

    /** The progress of the read loop, given its two locals and the messages from `base` on. */
    ghost function ProgressFrom(fullContent: string, sources: seq<Source>, base: nat): Progress
      reads this
      requires base <= |messages|
    {
      Progress(fullContent, sources, streamingContent, messages[base..])
    }

    /** The body of the line loop: decode one payload and act on its event. */
    method ConsumeLine(decode: string -> Option<Event>, payload: string, fullContent: string, sources: seq<Source>,
                       ghost base: nat)
      returns (fullContent': string, sources': seq<Source>)
      requires base <= |messages|
      modifies this`messages, this`streamingContent
      ensures base <= |messages| && messages[..base] == old(messages)[..base]
      ensures ProgressFrom(fullContent', sources', base)
           == StepLine(decode, old(ProgressFrom(fullContent, sources, base)), payload)
    {
      fullContent', sources' := fullContent, sources;
      match decode(payload) {
        case None =>
        case Some(SourcesEvent(s)) =>
          sources' := s;
        case Some(TokenEvent(t)) =>
          fullContent' := fullContent + t;
          streamingContent := fullContent';
        case Some(DoneEvent) =>
          messages := messages + [Message(Assistant, fullContent, sources)];
          streamingContent := "";
          assert messages[base..] == old(messages)[base..] + [Message(Assistant, fullContent, sources)];
      }
    }

    /** The `for` loop over one chunk's candidate lines. */
    method ConsumeChunk(decode: string -> Option<Event>, chunk: string, fullContent: string, sources: seq<Source>,
                        ghost base: nat)
      returns (fullContent': string, sources': seq<Source>)
      requires base <= |messages|
      modifies this`messages, this`streamingContent
      ensures base <= |messages| && messages[..base] == old(messages)[..base]
      ensures ProgressFrom(fullContent', sources', base)
           == RunPayloads(decode, old(ProgressFrom(fullContent, sources, base)), Payloads(chunk))
    {
      var lines := Payloads(chunk);
      fullContent', sources' := fullContent, sources;
      var j := 0;
      while j < |lines|
        invariant 0 <= j <= |lines|
        invariant base <= |messages| && messages[..base] == old(messages)[..base]
        invariant ProgressFrom(fullContent', sources', base)
               == RunPayloads(decode, old(ProgressFrom(fullContent, sources, base)), lines[..j])
      {
        fullContent', sources' := ConsumeLine(decode, lines[j], fullContent', sources', base);
        assert lines[..j + 1][..j] == lines[..j];
        j := j + 1;
      }
      assert lines[..j] == lines;
    }

    /** The `while (true)` read loop over the chunks of an opened stream. */
    method ReadStream(decode: string -> Option<Event>, chunks: seq<string>, ghost base: nat)
      requires base == |messages| && streamingContent == ""
      modifies this`messages, this`streamingContent
      ensures messages == old(messages) + RunChunks(decode, Start, chunks).committed
      ensures streamingContent == RunChunks(decode, Start, chunks).streaming
    {
      var fullContent: string := "";
      var sources: seq<Source> := [];
      var i := 0;
      while i < |chunks|
        invariant 0 <= i <= |chunks|
        invariant base <= |messages| && messages[..base] == old(messages)
        invariant ProgressFrom(fullContent, sources, base) == RunChunks(decode, Start, chunks[..i])
      {
        fullContent, sources := ConsumeChunk(decode, chunks[i], fullContent, sources, base);
        assert chunks[..i + 1][..i] == chunks[..i] && chunks[..i + 1][i] == chunks[i];
        assert RunChunks(decode, Start, chunks[..i + 1])
            == RunPayloads(decode, RunChunks(decode, Start, chunks[..i]), Payloads(chunks[i]));
        i := i + 1;
      }
      assert chunks[..i] == chunks;
      assert messages == messages[..base] + messages[base..];
    }

    /** An accepted submission: commit the user message, read the stream, fall back once if
        an exception escapes the stream path, and clear the loading flag on every path. */
    method Answer(decode: string -> Option<Event>, response: StreamResponse, fallback: FallbackResult)
      returns (requests: seq<Request>)
      modifies this
      ensures messages == old(messages) + [Message(User, old(input), [])] + Appended(decode, response, fallback)
      ensures input == "" && !isLoading
      ensures streamingContent == StreamProgress(decode, response).streaming
      ensures requests == Requests(old(input), response)
    {
      var query := input;
      messages := messages + [Message(User, query, [])];
      input := "";
      isLoading := true;
      streamingContent := "";
      requests := [StreamQuery(query, QueryLimit)];

      var failed := true;
      if response.Opened? {
        ReadStream(decode, response.chunks, |messages|);
        failed := response.end == ReadError;
      }
      if failed {
        requests := requests + [FallbackQuery(query, QueryLimit)];
        messages := messages + [FallbackMessage(fallback)];
      }
      isLoading := false;
    }

    /** `handleSubmit`: the guard, then the answer. */
    method HandleSubmit(decode: string -> Option<Event>, response: StreamResponse, fallback: FallbackResult)
      returns (requests: seq<Request>)
      modifies this
      ensures !Accepts(old(input), old(isLoading)) ==>
        && requests == []
        && messages == old(messages) && input == old(input)
        && isLoading == old(isLoading) && streamingContent == old(streamingContent)
      ensures Accepts(old(input), old(isLoading)) ==>
        && messages == old(messages) + [Message(User, old(input), [])] + Appended(decode, response, fallback)
        && input == ""
        && !isLoading
        && streamingContent == StreamProgress(decode, response).streaming
        && requests == Requests(old(input), response)
    {
      if Trim(input) == [] || isLoading {
        requests := [];
      } else {
        requests := Answer(decode, response, fallback);
      }
    }
  }

  // ---------------------------------------------------------------------------------------
  // What a submission appends

  /** Opening the stream failed: exactly one assistant message, the fallback's answer and
      sources or the fixed apology, is appended, and the fallback is asked with the same
      query and the same limit. */
  lemma OpenFailureFallsBack(decode: string -> Option<Event>, query: string, f: FallbackResult)
    ensures Appended(decode, OpenFailed, f) == [FallbackMessage(f)]
    ensures Requests(query, OpenFailed) == [StreamQuery(query, 5), FallbackQuery(query, 5)]
  {
  }

  /** A stream that ends cleanly appends one assistant message per done event that decodes
      chunk by chunk, and sends no fallback request; without such an event it appends nothing. */
  lemma CleanEndCommitsPerDone(decode: string -> Option<Event>, chunks: seq<string>, f: FallbackResult, query: string)
    ensures |Appended(decode, Opened(chunks, CleanEnd), f)| == CountDone(EventsOf(decode, chunks))
    ensures AllAssistant(Appended(decode, Opened(chunks, CleanEnd), f))
    ensures CountDone(EventsOf(decode, chunks)) == 0 ==> Appended(decode, Opened(chunks, CleanEnd), f) == []
    ensures Requests(query, Opened(chunks, CleanEnd)) == [StreamQuery(query, QueryLimit)]
  {
    RunChunksIsRunEvents(decode, Start, chunks);
    RunEventsFacts(Start, EventsOf(decode, chunks));
  }

  /** A read error after any number of chunks keeps the messages already committed by done
      events and appends exactly one more, from the fallback. */
  lemma ReadErrorFallsBack(decode: string -> Option<Event>, chunks: seq<string>, f: FallbackResult)
    ensures Appended(decode, Opened(chunks, ReadError), f)
         == RunChunks(decode, Start, chunks).committed + [FallbackMessage(f)]
    ensures |Appended(decode, Opened(chunks, ReadError), f)| == CountDone(EventsOf(decode, chunks)) + 1
  {
    RunChunksIsRunEvents(decode, Start, chunks);
    RunEventsFacts(Start, EventsOf(decode, chunks));
  }

  /** A stream with exactly one done event as its last event, ended cleanly, appends exactly one
      message: the concatenated tokens with the most recent sources. */
  lemma WellFormedStreamOneAnswer(decode: string -> Option<Event>, chunks: seq<string>, f: FallbackResult, es: seq<Event>)
    requires EventsOf(decode, chunks) == es + [DoneEvent]
    requires CountDone(es) == 0
    ensures Appended(decode, Opened(chunks, CleanEnd), f) == [Message(Assistant, Tokens(es), LastSources([], es))]
    ensures StreamProgress(decode, Opened(chunks, CleanEnd)).streaming == ""
  {
    RunChunksIsRunEvents(decode, Start, chunks);
    AfterDone(Start, es);
    RunEventsFacts(Start, es);
    assert "" + Tokens(es) == Tokens(es);
  }

  /** After the last chunk, the transient slot is empty or shows the whole accumulated answer. */
  lemma SlotAfterStream(decode: string -> Option<Event>, r: StreamResponse)
    ensures SlotConsistent(StreamProgress(decode, r))
  {
    if r.Opened? {
      RunChunksIsRunEvents(decode, Start, r.chunks);
      RunEventsFacts(Start, EventsOf(decode, r.chunks));
    }
  }
}
