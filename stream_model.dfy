/** What the answer-stream consumer does with the lines it reads, as functions of its inputs.
    The read loop keeps the accumulated answer (`fullContent`), the most recent sources, the
    transient `streamingContent` slot and the assistant messages it has committed; each decoded
    event updates that progress, and a line that does not decode leaves it as it is.
    `decode` stands for `JSON.parse` followed by the dispatch on the object's `type` field:
    it yields `None` both for text that is not JSON and for an object whose type is none of
    sources, token and done. */
module StreamModel {
  import opened Wrappers
  import opened EventLines

  datatype Source = Source(title: string, contentType: string, excerpt: string)

  datatype Event = SourcesEvent(sources: seq<Source>) | TokenEvent(text: string) | DoneEvent

  datatype Role = User | Assistant

  datatype Message = Message(role: Role, content: string, sources: seq<Source>)

  /** The state of one stream read loop. `committed` holds the assistant messages appended
      by `done` events, oldest first. */
  datatype Progress = Progress(fullContent: string, sources: seq<Source>, streaming: string, committed: seq<Message>)

  /** `fullContent = ''`, `sources = []`, and `streamingContent` just cleared by the submit. */
  const Start: Progress := Progress("", [], "", [])

  /** One decoded event. */
  function Step(p: Progress, e: Event): Progress {
    match e
    case SourcesEvent(s) => p.(sources := s)
    case TokenEvent(t) => p.(fullContent := p.fullContent + t, streaming := p.fullContent + t)
    case DoneEvent => p.(streaming := "", committed := p.committed + [Message(Assistant, p.fullContent, p.sources)])
  }

  /** One candidate line: its payload is decoded, and a payload that does not decode is skipped. */
  function StepLine(decode: string -> Option<Event>, p: Progress, payload: string): Progress {
    match decode(payload)
    case None => p
    case Some(e) => Step(p, e)
  }

  /** The inner loop over one chunk's payloads. */
  function RunPayloads(decode: string -> Option<Event>, p: Progress, ps: seq<string>): Progress
    decreases |ps|
  {
    if ps == [] then p else StepLine(decode, RunPayloads(decode, p, ps[..|ps| - 1]), ps[|ps| - 1])
  }

  /** The outer loop over the chunks, each filtered on its own. */
  function RunChunks(decode: string -> Option<Event>, p: Progress, chunks: seq<string>): Progress
    decreases |chunks|
  {
    if chunks == [] then p
    else RunPayloads(decode, RunChunks(decode, p, chunks[..|chunks| - 1]), Payloads(chunks[|chunks| - 1]))
  }

  /** A run of events. */
  function RunEvents(p: Progress, es: seq<Event>): Progress
    decreases |es|
  {
    if es == [] then p else Step(RunEvents(p, es[..|es| - 1]), es[|es| - 1])
  }

  /** The events that decode from a list of payloads, in order; undecodable payloads are dropped. */
  function DecodeAll(decode: string -> Option<Event>, ps: seq<string>): seq<Event>
    decreases |ps|
  {
    if ps == [] then []
    else
      DecodeAll(decode, ps[..|ps| - 1])
      + (match decode(ps[|ps| - 1]) case None => [] case Some(e) => [e])
  }

  /** All events the consumer acts on, chunk after chunk. */
  function EventsOf(decode: string -> Option<Event>, chunks: seq<string>): seq<Event>
    decreases |chunks|
  {
    if chunks == [] then []
    else EventsOf(decode, chunks[..|chunks| - 1]) + DecodeAll(decode, Payloads(chunks[|chunks| - 1]))
  }

  /** Reference: the concatenation of the token payloads, in arrival order. */
  function Tokens(es: seq<Event>): string
    decreases |es|
  {
    if es == [] then ""
    else Tokens(es[..|es| - 1]) + (if es[|es| - 1].TokenEvent? then es[|es| - 1].text else "")
  }

  /** Reference: the payload of the most recent sources event, or `initial` if there is none. */
  function LastSources(initial: seq<Source>, es: seq<Event>): seq<Source>
    decreases |es|
  {
    if es == [] then initial
    else if es[|es| - 1].SourcesEvent? then es[|es| - 1].sources
    else LastSources(initial, es[..|es| - 1])
  }

  /** Reference: the number of done events. */
  function CountDone(es: seq<Event>): nat
    decreases |es|
  {
    if es == [] then 0 else CountDone(es[..|es| - 1]) + (if es[|es| - 1].DoneEvent? then 1 else 0)
  }

  predicate AllAssistant(ms: seq<Message>) {
    forall k :: 0 <= k < |ms| ==> ms[k].role == Assistant
  }

  /** The transient slot is either empty or shows the whole answer so far. */
  predicate SlotConsistent(p: Progress) {
    p.streaming == "" || p.streaming == p.fullContent
  }

  // ---------------------------------------------------------------------------------------
  // Chunks, lines and events

  /** What one event does: a token only extends the answer and shows it, a sources event only
      replaces the sources, and a done event only commits one message holding the answer so far
      and clears the slot. */
  lemma StepEffect(p: Progress, e: Event)
    ensures Step(p, e).fullContent == p.fullContent + (if e.TokenEvent? then e.text else "")
    ensures Step(p, e).sources == (if e.SourcesEvent? then e.sources else p.sources)
    ensures |Step(p, e).committed| == |p.committed| + (if e.DoneEvent? then 1 else 0)
    ensures Step(p, e).committed[..|p.committed|] == p.committed
    ensures e.TokenEvent? ==> Step(p, e).streaming == Step(p, e).fullContent
    ensures e.SourcesEvent? ==> Step(p, e) == p.(sources := e.sources)
    ensures e.DoneEvent? ==> Step(p, e).streaming == ""
    ensures e.DoneEvent? ==> Step(p, e).committed[|p.committed|] == Message(Assistant, p.fullContent, p.sources)
    ensures SlotConsistent(p) ==> SlotConsistent(Step(p, e))
    ensures AllAssistant(p.committed) ==> AllAssistant(Step(p, e).committed)
  {
    if e.DoneEvent? {
      assert (p.committed + [Message(Assistant, p.fullContent, p.sources)])[..|p.committed|] == p.committed;
    }
  }

  /** What one candidate line does: an undecodable payload changes nothing, and any line keeps
      the earlier messages, adds at most one, only extends the answer and keeps the slot
      consistent. */
  lemma StepLineEffect(decode: string -> Option<Event>, p: Progress, payload: string)
    ensures decode(payload).None? ==> StepLine(decode, p, payload) == p
    ensures |p.fullContent| <= |StepLine(decode, p, payload).fullContent|
    ensures StepLine(decode, p, payload).fullContent[..|p.fullContent|] == p.fullContent
    ensures |p.committed| <= |StepLine(decode, p, payload).committed| <= |p.committed| + 1
    ensures StepLine(decode, p, payload).committed[..|p.committed|] == p.committed
    ensures SlotConsistent(p) ==> SlotConsistent(StepLine(decode, p, payload))
  {
    if decode(payload).Some? {
      StepEffect(p, decode(payload).value);
    }
  }

  lemma {:induction false} RunEventsAppend(p: Progress, a: seq<Event>, b: seq<Event>)
    ensures RunEvents(p, a + b) == RunEvents(RunEvents(p, a), b)
    decreases |b|
  {
    if b == [] {
      assert a + b == a;
    } else {
      assert (a + b)[..|a + b| - 1] == a + b[..|b| - 1];
      RunEventsAppend(p, a, b[..|b| - 1]);
    }
  }

  lemma {:induction false} DecodeAllAppend(decode: string -> Option<Event>, a: seq<string>, b: seq<string>)
    ensures DecodeAll(decode, a + b) == DecodeAll(decode, a) + DecodeAll(decode, b)
    decreases |b|
  {
    if b == [] {
      assert a + b == a;
    } else {
      assert (a + b)[..|a + b| - 1] == a + b[..|b| - 1];
      DecodeAllAppend(decode, a, b[..|b| - 1]);
    }
  }

  /** The inner loop acts on exactly the payloads that decode, in order. */
  lemma {:induction false} RunPayloadsIsRunEvents(decode: string -> Option<Event>, p: Progress, ps: seq<string>)
    ensures RunPayloads(decode, p, ps) == RunEvents(p, DecodeAll(decode, ps))
    decreases |ps|
  {
    if ps != [] {
      var init := ps[..|ps| - 1];
      RunPayloadsIsRunEvents(decode, p, init);
      var tail := match decode(ps[|ps| - 1]) case None => [] case Some(e) => [e];
      RunEventsAppend(p, DecodeAll(decode, init), tail);
      if tail != [] {
        assert [] + tail == tail;
      }
    }
  }

  /** Reading chunk after chunk acts on the events of all chunks in arrival order: the split
      into chunks matters only through which lines each chunk holds. */
  lemma {:induction false} RunChunksIsRunEvents(decode: string -> Option<Event>, p: Progress, chunks: seq<string>)
    ensures RunChunks(decode, p, chunks) == RunEvents(p, EventsOf(decode, chunks))
    decreases |chunks|
  {
    if chunks != [] {
      var init := chunks[..|chunks| - 1];
      RunChunksIsRunEvents(decode, p, init);
      RunPayloadsIsRunEvents(decode, RunChunks(decode, p, init), Payloads(chunks[|chunks| - 1]));
      RunEventsAppend(p, EventsOf(decode, init), DecodeAll(decode, Payloads(chunks[|chunks| - 1])));
    }
  }

  /** A corrupt line, or one whose type is unknown, changes nothing and does not stop the
      loop: the lines after it are processed as if it were not there. */
  lemma MalformedLineSkipped(decode: string -> Option<Event>, p: Progress, before: seq<string>, bad: string, after: seq<string>)
    requires decode(bad).None?
    ensures RunPayloads(decode, p, before + [bad] + after) == RunPayloads(decode, p, before + after)
  {
    RunPayloadsIsRunEvents(decode, p, before + [bad] + after);
    RunPayloadsIsRunEvents(decode, p, before + after);
    DecodeAllAppend(decode, before + [bad], after);
    DecodeAllAppend(decode, before, [bad]);
    DecodeAllAppend(decode, before, after);
    assert DecodeAll(decode, [bad]) == [] by {
      assert [bad][..0] == [];
    }
    assert DecodeAll(decode, before + [bad]) == DecodeAll(decode, before);
  }

  lemma OneChunk(decode: string -> Option<Event>, p: Progress, c: string)
    ensures RunChunks(decode, p, [c]) == RunPayloads(decode, p, Payloads(c))
  {
    assert [c][..0] == [];
  }

  lemma OnePayload(decode: string -> Option<Event>, p: Progress, x: string)
    ensures RunPayloads(decode, p, [x]) == StepLine(decode, p, x)
  {
    assert [x][..0] == [];
  }

  /** Each chunk is filtered on its own: a line split across two chunks is not reassembled.
      Its first half is decoded (and usually fails to parse), and its second half, lacking
      the prefix, is discarded; the same line delivered whole is decoded whole. */
  lemma SplitLineNotReassembled(decode: string -> Option<Event>, p: Progress, x: string, y: string)
    requires '\n' !in x && '\n' !in y && !IsDataLine(y)
    ensures RunChunks(decode, p, [DataPrefix + x, y]) == StepLine(decode, p, x)
    ensures RunChunks(decode, p, [DataPrefix + x + y]) == StepLine(decode, p, x + y)
  {
    DataLine(x);
    DataLine(x + y);
    OneLine(y);
    assert DataPrefix + x + y == DataPrefix + (x + y);
    assert [DataPrefix + x, y][..1] == [DataPrefix + x];
    OneChunk(decode, p, DataPrefix + x);
    OnePayload(decode, p, x);
    OneChunk(decode, p, DataPrefix + (x + y));
    OnePayload(decode, p, x + y);
  }

  // ---------------------------------------------------------------------------------------
  // What the read loop keeps

  /** After any run of events, `fullContent` has grown by the token payloads in arrival
      order, `sources` is the most recent sources payload (or what it was), one assistant
      message has been committed per done event after the ones already there, and the
      transient slot still shows either nothing or the whole answer so far. */
  lemma {:induction false} RunEventsFacts(p: Progress, es: seq<Event>)
    ensures RunEvents(p, es).fullContent == p.fullContent + Tokens(es)
    ensures RunEvents(p, es).sources == LastSources(p.sources, es)
    ensures |RunEvents(p, es).committed| == |p.committed| + CountDone(es)
    ensures RunEvents(p, es).committed[..|p.committed|] == p.committed
    ensures AllAssistant(p.committed) ==> AllAssistant(RunEvents(p, es).committed)
    ensures SlotConsistent(p) ==> SlotConsistent(RunEvents(p, es))
    decreases |es|
  {
    if es != [] {
      var q := RunEvents(p, es[..|es| - 1]);
      RunEventsFacts(p, es[..|es| - 1]);
      var e := es[|es| - 1];
      if e.DoneEvent? {
        assert (q.committed + [Message(Assistant, q.fullContent, q.sources)])[..|p.committed|]
            == q.committed[..|p.committed|];
      }
    }
  }

  /** Right after a token event the slot mirrors the whole accumulated answer. */
  lemma AfterToken(p: Progress, es: seq<Event>, t: string)
    ensures RunEvents(p, es + [TokenEvent(t)]).fullContent == p.fullContent + Tokens(es) + t
    ensures RunEvents(p, es + [TokenEvent(t)]).streaming == RunEvents(p, es + [TokenEvent(t)]).fullContent
  {
    assert (es + [TokenEvent(t)])[..|es|] == es;
    RunEventsFacts(p, es);
  }

  /** A done event appends one assistant message holding the answer and the most recent
      sources so far, and clears the slot. */
  lemma AfterDone(p: Progress, es: seq<Event>)
    ensures RunEvents(p, es + [DoneEvent]).committed
         == RunEvents(p, es).committed + [Message(Assistant, p.fullContent + Tokens(es), LastSources(p.sources, es))]
    ensures RunEvents(p, es + [DoneEvent]).streaming == ""
  {
    assert (es + [DoneEvent])[..|es|] == es;
    RunEventsFacts(p, es);
  }

  /** The answer of the scenario: sources, then "Hel", "lo", " world", then done. */
  lemma HelloWorld(s: seq<Source>)
    ensures RunEvents(Start, [SourcesEvent(s), TokenEvent("Hel"), TokenEvent("lo"), TokenEvent(" world"), DoneEvent]).committed
         == [Message(Assistant, "Hello world", s)]
  {
    var e1 := [SourcesEvent(s)];
    var e2 := e1 + [TokenEvent("Hel")];
    var e3 := e2 + [TokenEvent("lo")];
    var e4 := e3 + [TokenEvent(" world")];
    var e5 := e4 + [DoneEvent];
    assert e1[..0] == [] && e2[..1] == e1 && e3[..2] == e2 && e4[..3] == e3 && e5[..4] == e4;
    var p1 := RunEvents(Start, e1);
    assert p1 == Step(RunEvents(Start, []), SourcesEvent(s));
    assert p1.fullContent == "" && p1.sources == s && p1.committed == [];
    var p2 := RunEvents(Start, e2);
    assert p2.fullContent == "Hel" && p2.sources == s && p2.committed == [];
    var p3 := RunEvents(Start, e3);
    assert p3.fullContent == "Hello" && p3.sources == s && p3.committed == [];
    var p4 := RunEvents(Start, e4);
    assert p4.fullContent == "Hello world" && p4.sources == s && p4.committed == [];
    assert e5 == [SourcesEvent(s), TokenEvent("Hel"), TokenEvent("lo"), TokenEvent(" world"), DoneEvent];
  }

}
