/** The run bridge: a proxy goroutine that forwards agent events onto a pipe, and a persist goroutine
    that drains it, assembles the answer and decides once whether the turn is committed or discarded.
    `BridgeMachine` interleaves the two; here are the events and the loops themselves. */
module Bridge {
  import opened Wrappers
  import opened Messages
  import opened BridgeMachine

  // ----- what the iterator yields -----

  /** A stream ends in EOF or in a receive error. */
  datatype Body =
    | NoMessage
    | Whole(message: Message)
    | Stream(chunks: seq<Message>, broken: bool)

  /** One iterator event. `notice` is what `OnError` returned, `selected` what the predicate answered. */
  datatype AgentEvent =
    | NilEvent
    | Failed(notice: Option<Message>)
    | Silent
    | Output(selected: bool, body: Body)

  function SendAll(chunks: seq<Message>): (acts: seq<Action>)
    ensures |acts| == |chunks|
    ensures forall i :: 0 <= i < |chunks| ==> acts[i] == Send(Chunk(chunks[i]))
  {
    seq(|chunks|, i requires 0 <= i < |chunks| => Send(Chunk(chunks[i])))
  }

  /** How an error is announced: what was forwarded, the flag store, a notice, the fault. */
  function Announce(forwarded: seq<Message>, notice: seq<Message>): seq<Action> {
    SendAll(forwarded) + ([SetIncomplete] + (SendAll(notice) + [Send(Fault)]))
  }

  function ActionsOf(e: AgentEvent): seq<Action> {
    match e
    case NilEvent => []
    case Failed(notice) => Announce([], if notice.Some? && notice.value.Msg? then [notice.value] else [])
    case Silent => []
    case Output(false, _) => []
    case Output(true, NoMessage) => []
    case Output(true, Whole(m)) => if m.Nil? then [] else [Send(Chunk(m))]
    case Output(true, Stream(chunks, broken)) => if broken then Announce(chunks, []) else SendAll(chunks)
  }

  function Actions(events: seq<AgentEvent>): seq<Action> {
    if events == [] then [] else ActionsOf(events[0]) + Actions(events[1..])
  }

  /** An agent error, or a selected stream that breaks. */
  predicate IsError(e: AgentEvent) {
    e.Failed? || (e.Output? && e.selected && e.body.Stream? && e.body.broken)
  }

  predicate RunFails(events: seq<AgentEvent>) {
    exists i :: 0 <= i < |events| && IsError(events[i])
  }

  // ----- the goroutine bodies, one at a time -----

  method ProxyStream(chunks: seq<Message>, broken: bool) returns (acts: seq<Action>)
    ensures acts == ActionsOf(Output(true, Stream(chunks, broken)))
  {
    acts := [];
    for i := 0 to |chunks|
      invariant acts == SendAll(chunks[..i])
    {
      acts := acts + [Send(Chunk(chunks[i]))];
    }
    assert chunks[..|chunks|] == chunks;
    if broken {
      acts := acts + [SetIncomplete, Send(Fault)];
    }
  }

  /** The body of the proxy loop. */
  method ProxyEvent(e: AgentEvent) returns (acts: seq<Action>)
    ensures acts == ActionsOf(e)
  {
    acts := [];
    match e
    case NilEvent =>
    case Failed(notice) =>
      acts := acts + [SetIncomplete];
      if notice.Some? && notice.value.Msg? {
        acts := acts + [Send(Chunk(notice.value))];
      }
      acts := acts + [Send(Fault)];
    case Silent =>
    case Output(selected, body) =>
      if selected {
        match body
        case NoMessage =>
        case Whole(m) =>
          if m.Msg? {
            acts := acts + [Send(Chunk(m))];
          }
        case Stream(chunks, broken) =>
          acts := ProxyStream(chunks, broken);
      }
  }

  /** The proxy loop, recording what it does. */
  method Proxy(events: seq<AgentEvent>) returns (acts: seq<Action>)
    ensures acts == Actions(events)
  {
    acts := [];
    for i := 0 to |events|
      invariant acts + Actions(events[i..]) == Actions(events)
    {
      var more := ProxyEvent(events[i]);
      assert events[i..][0] == events[i] && events[i..][1..] == events[i + 1..];
      assert acts + (more + Actions(events[i + 1..])) == acts + more + Actions(events[i + 1..]);
      acts := acts + more;
    }
    assert events[|events|..] == [] && acts + [] == acts;
  }

  /** The persist loop over a finished pipe: what it accumulates, and whether it stopped at a fault. */
  method Drain(items: seq<Item>) returns (fullMsgs: seq<Message>, faulted: bool)
    ensures fullMsgs == Answer(items)
    ensures faulted <==> Fault in items
  {
    fullMsgs, faulted := [], false;
    for i := 0 to |items|
      invariant fullMsgs + Answer(items[i..]) == Answer(items)
      invariant Fault !in items[..i]
    {
      assert items[i..][0] == items[i] && items[i..][1..] == items[i + 1..];
      if items[i].Fault? {
        faulted := true;
        assert fullMsgs + [] == fullMsgs;
        return;
      }
      var chunk := items[i].message;
      ghost var rest := Answer(items[i + 1..]);
      if chunk.Nil? || IsEphemeral(chunk) || |chunk.toolCalls| > 0 {
        assert [] + rest == rest;
        continue;
      }
      assert fullMsgs + ([chunk] + rest) == fullMsgs + [chunk] + rest;
      fullMsgs := fullMsgs + [chunk];
    }
    assert items[|items|..] == [] && items[..|items|] == items && fullMsgs + [] == fullMsgs;
  }

  lemma Regrouped<T>(a: seq<T>, b: seq<T>, c: seq<T>)
    ensures a + (b + c) == a + b + c
  {
  }

  lemma {:induction false} SendsConcat(a: seq<Action>, b: seq<Action>)
    ensures Sends(a + b) == Sends(a) + Sends(b)
  {
    if a == [] {
      assert a + b == b;
    } else {
      SendsConcat(a[1..], b);
      assert (a + b)[1..] == a[1..] + b && (a + b)[0] == a[0];
      Regrouped(if a[0].Send? then [a[0].item] else [], Sends(a[1..]), Sends(b));
    }
  }

  lemma ForwardedFirst(chunk: Message, rest: seq<Action>, raised: bool)
    ensures var acts := [Send(Chunk(chunk))] + rest;
            (Fault in Sends(acts) <==> Fault in Sends(rest)) && FlagFirst(acts, raised) == FlagFirst(rest, raised)
  {
    var acts := [Send(Chunk(chunk))] + rest;
    assert acts[1..] == rest && Sends(acts) == [Chunk(chunk)] + Sends(rest);
  }

  lemma {:induction false} ForwardedSends(chunks: seq<Message>, tail: seq<Action>, raised: bool)
    requires FlagFirst(tail, raised)
    ensures Fault in Sends(SendAll(chunks) + tail) <==> Fault in Sends(tail)
    ensures FlagFirst(SendAll(chunks) + tail, raised)
  {
    if chunks == [] {
      assert SendAll(chunks) + tail == tail;
    } else {
      var rest := SendAll(chunks[1..]) + tail;
      ForwardedSends(chunks[1..], tail, raised);
      ForwardedFirst(chunks[0], rest, raised);
      assert SendAll(chunks) + tail == [Send(Chunk(chunks[0]))] + rest;
    }
  }

  /** One event sends a fault exactly when it is an error, and stores the flag first. */
  lemma EventFault(e: AgentEvent)
    ensures Fault in Sends(ActionsOf(e)) <==> IsError(e)
    ensures FlagFirst(ActionsOf(e), false)
  {
    if IsError(e) {
      var notice := if e.Failed? && e.notice.Some? && e.notice.value.Msg? then [e.notice.value] else [];
      var forwarded := if e.Failed? then [] else e.body.chunks;
      var tail := SendAll(notice) + [Send(Fault)];
      assert [Send(Fault)][1..] == [] && Sends([Send(Fault)]) == [Fault];
      ForwardedSends(notice, [Send(Fault)], true);
      var announce := [SetIncomplete] + tail;
      assert announce[1..] == tail;
      assert Sends(announce) == Sends(tail);
      ForwardedSends(forwarded, announce, false);
    } else if e.Output? && e.selected && e.body.Stream? {
      ForwardedSends(e.body.chunks, [], false);
      assert SendAll(e.body.chunks) + [] == ActionsOf(e);
    }
  }

  function Scripts(events: seq<AgentEvent>): seq<seq<Action>> {
    seq(|events|, i requires 0 <= i < |events| => ActionsOf(events[i]))
  }

  /** The pipe receives what the proxy loop sends. */
  lemma {:induction false} ProxySends(events: seq<AgentEvent>)
    ensures Sends(Actions(events)) == Items(Scripts(events))
  {
    if events != [] {
      ProxySends(events[1..]);
      assert Scripts(events)[1..] == Scripts(events[1..]);
      SendsConcat(ActionsOf(events[0]), Actions(events[1..]));
    }
  }

  lemma {:induction false} FaultIffRunFails(events: seq<AgentEvent>)
    ensures Fault in Items(Scripts(events)) <==> RunFails(events)
  {
    if events != [] {
      var rest := events[1..];
      FaultIffRunFails(rest);
      assert Scripts(events)[1..] == Scripts(rest);
      EventFault(events[0]);
      assert RunFails(rest) ==> RunFails(events) by {
        if RunFails(rest) {
          var i :| 0 <= i < |rest| && IsError(rest[i]);
          assert IsError(events[i + 1]);
        }
      }
      assert RunFails(events) && !IsError(events[0]) ==> RunFails(rest) by {
        if RunFails(events) && !IsError(events[0]) {
          var i :| 0 <= i < |events| && IsError(events[i]);
          assert IsError(rest[i - 1]);
        }
      }
    }
  }

  const DEFAULT_BUFFER_SIZE := 1000

  function Capacity(bufferSize: int): nat {
    if bufferSize <= 0 then DEFAULT_BUFFER_SIZE else bufferSize
  }

  function Launch(events: seq<AgentEvent>, bufferSize: int): State {
    Start(Scripts(events), Capacity(bufferSize))
  }

  /** What the turn is given, of the eligible chunks `msgs`: their text, marked incomplete when the run failed,
      or a discard. */
  predicate Owed(outcome: Outcome, msgs: seq<Message>, failed: bool) {
    match outcome
    case Commit(answer) =>
      && msgs != [] && answer.Msg? && answer.content == JoinContents(msgs)
      && ((forall m :: m in msgs ==> !IsIncomplete(m)) ==> (IsIncomplete(answer) <==> failed))
    case Discard(concatFailed) => concatFailed <==> msgs != []
  }

  /** Every run under every schedule and every behaviour of the caller. A decision is taken for sure, once, and
      is the one owed for the eligible text before the first error. Nobody can move only when all is done. */
  lemma BridgeDecidesOnce(events: seq<AgentEvent>, bufferSize: int, steps: seq<Step>, more: seq<Step>)
    requires Runs(Launch(events, bufferSize), steps) && Runs(Final(Launch(events, bufferSize), steps), more)
    ensures var s := Final(Launch(events, bufferSize), steps);
            && ((forall step :: Enabled(s, step) ==> ByCaller(step)) ==>
                  s.persist.Decided? && (Terminated(s) <==> !Blocked(s)))
            && ((forall step :: !Enabled(s, step)) ==> Terminated(s))
            && (s.persist.Decided? ==>
                  && Final(s, more).persist == s.persist
                  && Owed(s.persist.outcome, Answer(Sends(Actions(events))), RunFails(events)))
  {
    forall e: AgentEvent
      ensures FlagFirst(ActionsOf(e), false)
    {
      EventFault(e);
    }
    ProxySends(events);
    FaultIffRunFails(events);
    DecidesOnce(Scripts(events), Capacity(bufferSize), steps, more);
  }
}
