/** The activity events of one streamed model output. */
module StreamTrace {
  import opened Wrappers

  datatype Usage = Usage(prompt: int, cached: int, completion: int, reasoning: int, total: int)

  datatype Meta = Meta(finish: string, usage: Option<Usage>)

  datatype Message = Message(content: string, reasoning: string, meta: Option<Meta>)

  /** `Other` are chunks that are no model output. */
  datatype Chunk = Other | Output(usage: Option<Usage>, message: Option<Message>)

  /** How the stream ends: at its end, or with an error. */
  datatype Ending = Eof | Broken(error: string)

  datatype Event =
    | ReasoningStarted(id: string)
    | ReasoningDelta(id: string, delta: string)
    | ReasoningEnded(id: string, text: string)
    | TextDelta(delta: string)
    | TextEnded(text: string)
    | StepEnded(finish: string, usage: Option<Usage>, text: string, reasoning: string)
    | StepFailed(error: string)

  // ----- what the handler publishes -----

  datatype Progress = Progress(text: string, reasoning: string, usage: Option<Usage>, finish: string, started: bool,
      events: seq<Event>)

  const BEGIN := Progress("", "", None, "", false, [])

  /** The effect of a chunk's metadata. */
  function WithMeta(p: Progress, c: Chunk): Progress {
    if c.Other? then p
    else
      var q := if c.usage.Some? then p.(usage := c.usage) else p;
      if c.message.None? || c.message.value.meta.None? then q
      else
        var meta := c.message.value.meta.value;
        q.(finish := if meta.finish != "" then meta.finish else q.finish,
           usage := if q.usage.None? then meta.usage else q.usage)
  }

  function WithReasoning(p: Progress, id: string, r: string): Progress {
    if r == "" then p
    else
      p.(started := true, reasoning := p.reasoning + r,
         events := p.events + (if p.started then [] else [ReasoningStarted(id)]) + [ReasoningDelta(id, r)])
  }

  function WithText(p: Progress, c: string): Progress {
    if c == "" then p else p.(text := p.text + c, events := p.events + [TextDelta(c)])
  }

  function Read(p: Progress, id: string, c: Chunk): Progress {
    var q := WithMeta(p, c);
    if c.Output? && c.message.Some?
        then WithText(WithReasoning(q, id, c.message.value.reasoning), c.message.value.content) else q
  }

  function ReadAll(id: string, chunks: seq<Chunk>): Progress {
    if chunks == [] then BEGIN else Read(ReadAll(id, chunks[..|chunks| - 1]), id, chunks[|chunks| - 1])
  }

  /** The trace once the blocks that are open are closed. */
  function Close(p: Progress, id: string, ending: Ending): seq<Event> {
    p.events + (if p.started then [ReasoningEnded(id, p.reasoning)] else []) + [TextEnded(p.text)]
    + [if ending.Eof? then StepEnded(p.finish, p.usage, p.text, p.reasoning) else StepFailed(ending.error)]
  }

  function Published(id: string, chunks: seq<Chunk>, ending: Ending): seq<Event> {
    Close(ReadAll(id, chunks), id, ending)
  }

  /** `OnEndWithStreamOutput`; `id` is the reasoning id it draws when it needs one. */
  method StreamOutput(id: string, chunks: seq<Chunk>, ending: Ending) returns (events: seq<Event>)
    ensures events == Published(id, chunks, ending)
  {
    var text, reasoning, finish := "", "", "";
    var usage: Option<Usage> := None;
    var started := false;
    events := [];
    for i := 0 to |chunks|
      invariant Progress(text, reasoning, usage, finish, started, events) == ReadAll(id, chunks[..i])
    {
      assert chunks[..i + 1][..i] == chunks[..i];
      var mo := chunks[i];
      if mo.Other? {
        continue;
      }
      if mo.usage.Some? {
        usage := mo.usage;
      }
      if mo.message.None? {
        continue;
      }
      var message := mo.message.value;
      if message.meta.Some? {
        if message.meta.value.finish != "" {
          finish := message.meta.value.finish;
        }
        if usage.None? && message.meta.value.usage.Some? {
          usage := message.meta.value.usage;
        }
      }
      if message.reasoning != "" {
        if !started {
          started := true;
          events := events + [ReasoningStarted(id)];
        }
        reasoning := reasoning + message.reasoning;
        events := events + [ReasoningDelta(id, message.reasoning)];
      }
      if message.content != "" {
        text := text + message.content;
        events := events + [TextDelta(message.content)];
      }
    }
    assert chunks[..|chunks|] == chunks;
    if started {
      events := events + [ReasoningEnded(id, reasoning)];
    }
    events := events + [TextEnded(text)];
    events := events + [if ending.Eof? then StepEnded(finish, usage, text, reasoning) else StepFailed(ending.error)];
  }

  // ----- what consumers rely on -----

  /** A consumer that tracks blocks: which are open, and the text of each. `Wrong` is for a trace that is
      not well bracketed or ends a block with another text than that of its deltas. */
  datatype Tracker =
    | Plain(text: string)
    | Thinking(id: string, reasoning: string, text: string)
    | Thought(reasoning: string, text: string)
    | Closed(reasoning: string, text: string)
    | Finished(reasoning: string, text: string)
    | Wrong

  function Track(t: Tracker, e: Event): Tracker {
    match (t, e)
    case (Plain(text), TextDelta(d)) => Plain(text + d)
    case (Plain(text), ReasoningStarted(id)) => Thinking(id, "", text)
    case (Plain(text), TextEnded(all)) => if all == text then Closed("", text) else Wrong
    case (Thinking(id, reasoning, text), TextDelta(d)) => Thinking(id, reasoning, text + d)
    case (Thinking(id, reasoning, text), ReasoningDelta(i, d)) => if i == id then Thinking(id, reasoning + d, text)
        else Wrong
    case (Thinking(id, reasoning, text), ReasoningEnded(i, all)) => if i == id && all == reasoning
        then Thought(reasoning, text) else Wrong
    case (Thought(reasoning, text), TextEnded(all)) => if all == text then Closed(reasoning, text) else Wrong
    case (Closed(reasoning, text), StepEnded(_, _, t, r)) => if t == text && r == reasoning
        then Finished(reasoning, text) else Wrong
    case (Closed(reasoning, text), StepFailed(_)) => Finished(reasoning, text)
    case _ => Wrong
  }

  function TrackAll(events: seq<Event>): Tracker {
    if events == [] then Plain("") else Track(TrackAll(events[..|events| - 1]), events[|events| - 1])
  }

  /** Where the tracker is while chunks are read. */
  function Where(p: Progress, id: string): Tracker {
    if p.started then Thinking(id, p.reasoning, p.text) else Plain(p.text)
  }

  predicate OnTrack(p: Progress, id: string) {
    TrackAll(p.events) == Where(p, id) && (!p.started ==> p.reasoning == "")
  }

  lemma ReadOnTrack(p: Progress, id: string, c: Chunk)
    requires OnTrack(p, id)
    ensures OnTrack(Read(p, id, c), id)
  {
    var q := WithMeta(p, c);
    if c.Output? && c.message.Some? {
      ReasoningOnTrack(q, id, c.message.value.reasoning);
      TextOnTrack(WithReasoning(q, id, c.message.value.reasoning), id, c.message.value.content);
    }
  }

  lemma StartedOnTrack(p: Progress, id: string, begun: seq<Event>)
    requires OnTrack(p, id) && begun == p.events + if p.started then [] else [ReasoningStarted(id)]
    ensures TrackAll(begun) == Thinking(id, p.reasoning, p.text)
  {
    if p.started {
      assert begun == p.events;
    }
  }

  lemma ReasoningOnTrack(p: Progress, id: string, r: string)
    requires OnTrack(p, id)
    ensures OnTrack(WithReasoning(p, id, r), id)
  {
    if r != "" {
      var begun := p.events + if p.started then [] else [ReasoningStarted(id)];
      StartedOnTrack(p, id, begun);
    }
  }

  lemma TextOnTrack(p: Progress, id: string, c: string)
    requires OnTrack(p, id)
    ensures OnTrack(WithText(p, c), id)
  {
  }

  lemma {:induction false} AllOnTrack(id: string, chunks: seq<Chunk>)
    ensures OnTrack(ReadAll(id, chunks), id)
  {
    if chunks != [] {
      AllOnTrack(id, chunks[..|chunks| - 1]);
      ReadOnTrack(ReadAll(id, chunks[..|chunks| - 1]), id, chunks[|chunks| - 1]);
    }
  }

  lemma CloseFinishes(p: Progress, id: string, ending: Ending)
    requires OnTrack(p, id)
    ensures TrackAll(Close(p, id, ending)) == Finished(p.reasoning, p.text)
  {
    var a := p.events + if p.started then [ReasoningEnded(id, p.reasoning)] else [];
    if !p.started {
      assert a == p.events;
    }
    assert TrackAll(a) == if p.started then Thought(p.reasoning, p.text) else Plain(p.text);
  }

  /** The contents and the reasoning of all chunks. */
  function Contents(chunks: seq<Chunk>): string {
    if chunks == [] then ""
    else
      var c := chunks[|chunks| - 1];
      Contents(chunks[..|chunks| - 1]) + if c.Output? && c.message.Some? then c.message.value.content else ""
  }

  function Reasonings(chunks: seq<Chunk>): string {
    if chunks == [] then ""
    else
      var c := chunks[|chunks| - 1];
      Reasonings(chunks[..|chunks| - 1]) + if c.Output? && c.message.Some? then c.message.value.reasoning else ""
  }

  lemma ReadAppends(p: Progress, id: string, c: Chunk)
    ensures Read(p, id, c).text == p.text + if c.Output? && c.message.Some? then c.message.value.content else ""
    ensures Read(p, id, c).reasoning == p.reasoning + if c.Output? && c.message.Some? then c.message.value.reasoning
        else ""
  {
    assert p.text + "" == p.text && p.reasoning + "" == p.reasoning;
    assert WithMeta(p, c).text == p.text && WithMeta(p, c).reasoning == p.reasoning;
  }

  lemma {:induction false} BuffersHoldAll(id: string, chunks: seq<Chunk>)
    ensures ReadAll(id, chunks).text == Contents(chunks) && ReadAll(id, chunks).reasoning == Reasonings(chunks)
  {
    if chunks != [] {
      BuffersHoldAll(id, chunks[..|chunks| - 1]);
      ReadAppends(ReadAll(id, chunks[..|chunks| - 1]), id, chunks[|chunks| - 1]);
    }
  }

  /** For every stream and either ending, the published trace is well bracketed, ends every block with the
      text of its deltas, which is that of the chunks, and finishes. */
  lemma TraceIsWellBracketed(id: string, chunks: seq<Chunk>, ending: Ending)
    ensures TrackAll(Published(id, chunks, ending)) == Finished(Reasonings(chunks), Contents(chunks))
  {
    AllOnTrack(id, chunks);
    BuffersHoldAll(id, chunks);
    CloseFinishes(ReadAll(id, chunks), id, ending);
  }

  predicate IsStep(e: Event) {
    e.StepEnded? || e.StepFailed?
  }

  lemma {:induction false} OnlyStepsFinish(events: seq<Event>)
    ensures !TrackAll(events).Finished? && !TrackAll(events).Wrong? ==> forall k :: 0 <= k < |events| ==>
        !IsStep(events[k])
  {
    if events != [] {
      OnlyStepsFinish(events[..|events| - 1]);
    }
  }

  /** A finished trace has exactly one event that ends or fails the step, and it is the last. */
  lemma StepIsLast(events: seq<Event>)
    requires TrackAll(events).Finished?
    ensures events != [] && IsStep(events[|events| - 1]) && forall k :: 0 <= k < |events| - 1 ==> !IsStep(events[k])
  {
    OnlyStepsFinish(events[..|events| - 1]);
  }

  // ----- usage -----

  /** Reported usage wins over that in message metadata; the last report and the first metadata count. */
  function Reported(chunks: seq<Chunk>): Option<Usage> {
    if chunks == [] then None
    else
      var c := chunks[|chunks| - 1];
      if c.Output? && c.usage.Some? then c.usage else Reported(chunks[..|chunks| - 1])
  }

  function MetaUsage(c: Chunk): Option<Usage> {
    if c.Output? && c.message.Some? && c.message.value.meta.Some? then c.message.value.meta.value.usage else None
  }

  function FirstMeta(chunks: seq<Chunk>): Option<Usage> {
    if chunks == [] then None
    else
      var before := FirstMeta(chunks[..|chunks| - 1]);
      if before.Some? then before else MetaUsage(chunks[|chunks| - 1])
  }

  lemma {:induction false} UsageIsChosen(id: string, chunks: seq<Chunk>)
    ensures ReadAll(id, chunks).usage == if Reported(chunks).Some? then Reported(chunks) else FirstMeta(chunks)
  {
    if chunks != [] {
      UsageIsChosen(id, chunks[..|chunks| - 1]);
    }
  }
}
