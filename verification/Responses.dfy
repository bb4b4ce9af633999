/** Reassembling tool calls, by item id, from a stream of response events. */
module Responses {
  import opened Wrappers

  datatype Usage = Usage(input: int, output: int, total: int)

  datatype Item = Item(id: string, sealed: string)

  datatype Completion = Completion(usage: Option<Usage>, incomplete: Option<string>)

  /** One line of the stream. `Ignored` are blank lines, comments, unreadable and unknown events, and
      events that lack their item; `Finished` is `[DONE]`; at `Cancelled` the context is found cancelled, at
      `ScanFailed` no line can be read. */
  datatype Event =
    | Ignored | Cancelled | ScanFailed | Finished
    | Created(response: Option<string>)
    | AddedCall(id: string, name: string)
    | AddedReasoning(item: Item, summary: string)
    | TextDelta(text: string)
    | ArgsDelta(id: string, callId: string, args: string)
    | ReasoningDelta(text: string, about: Option<Item>)
    | DoneCall(id: string)
    | DoneMessage(id: string)
    | Completed(result: Option<Completion>)

  datatype Accum = Accum(callId: string, name: string, args: string)

  datatype Out =
    | Text(text: string)
    | Reasoning(text: string, item: Option<Item>)
    | CallOut(id: string, call: Accum)
    | MessageOut(id: string)
    | Meta(finish: string, usage: Option<Usage>, response: string)

  datatype End = DoneMarker | ContextError | ScanError

  datatype State = State(acc: map<string, Accum>, response: string, usage: Option<Usage>, incomplete: string,
      out: seq<Out>, end: Option<End>)

  const START := State(map[], "", None, "", [], None)

  function FinishReason(reason: string): string {
    if reason == "" then "stop" else if reason == "max_output_tokens" then "length" else reason
  }

  predicate Named(item: Item) {
    item.sealed != "" || item.id != ""
  }

  function WithArgs(a: Accum, callId: string, args: string): Accum {
    a.(callId := if a.callId == "" then callId else a.callId, args := a.args + args)
  }

  /** What events that are about neither calls nor the response as a whole send. */
  function Says(e: Event): (r: seq<Out>)
    ensures |r| <= 1 && (r != [] ==> !r[0].CallOut?)
  {
    match e
    case AddedReasoning(item, summary) =>
      if summary != "" || Named(item) then [Reasoning(summary, if Named(item) then Some(item) else None)] else []
    case TextDelta(text) => if text != "" then [Text(text)] else []
    case ReasoningDelta(text, about) =>
      var known := about.Some? && Named(about.value);
      if text != "" || known then [Reasoning(text, if known then about else None)] else []
    case DoneMessage(id) => if id != "" then [MessageOut(id)] else []
    case _ => []
  }

  function Complete(s: State, result: Option<Completion>): State {
    var usage := if result.Some? then result.value.usage else s.usage;
    var incomplete := if result.Some? && result.value.incomplete.Some? then result.value.incomplete.value
        else s.incomplete;
    s.(usage := usage, incomplete := incomplete, out := s.out + [Meta(FinishReason(incomplete), usage, s.response)])
  }

  function Step(s: State, e: Event): State {
    if s.end.Some? then s
    else
      match e
      case Cancelled => s.(end := Some(ContextError))
      case ScanFailed => s.(end := Some(ScanError))
      case Finished => s.(end := Some(DoneMarker))
      case Created(response) => if response.Some? then s.(response := response.value) else s
      case AddedCall(id, name) => s.(acc := s.acc[id := Accum("", name, "")])
      case ArgsDelta(id, callId, args) =>
        if id != "" && id in s.acc then s.(acc := s.acc[id := WithArgs(s.acc[id], callId, args)]) else s
      case DoneCall(id) =>
        if id in s.acc then s.(out := s.out + [CallOut(id, s.acc[id])], acc := s.acc - {id}) else s
      case Completed(result) => Complete(s, result)
      case _ => s.(out := s.out + Says(e))
  }

  function Run(events: seq<Event>): State {
    if events == [] then START else Step(Run(events[..|events| - 1]), events[|events| - 1])
  }

  // ----- one item at a time -----

  /** What the events say about one item. */
  datatype Mark = Add(name: string) | Arg(callId: string, args: string) | Done

  function MarkOf(e: Event, id: string): seq<Mark> {
    match e
    case AddedCall(i, name) => if i == id then [Add(name)] else []
    case ArgsDelta(i, callId, args) => if i == id && id != "" then [Arg(callId, args)] else []
    case DoneCall(i) => if i == id then [Done] else []
    case _ => []
  }

  /** The marks of one item, up to the end of the stream. */
  function Marks(events: seq<Event>, id: string): seq<Mark> {
    if events == [] then []
    else
      var front := events[..|events| - 1];
      Marks(front, id) + if Run(front).end.None? then MarkOf(events[|events| - 1], id) else []
  }

  /** One item on its own: its open call, and the calls sent for it. */
  datatype One = One(open: Option<Accum>, sent: seq<Accum>)

  function OneStep(o: One, m: Mark): One {
    match m
    case Add(name) => o.(open := Some(Accum("", name, "")))
    case Arg(callId, args) => if o.open.Some? then o.(open := Some(WithArgs(o.open.value, callId, args))) else o
    case Done => if o.open.Some? then One(None, o.sent + [o.open.value]) else o
  }

  function OneRun(ms: seq<Mark>): One {
    if ms == [] then One(None, []) else OneStep(OneRun(ms[..|ms| - 1]), ms[|ms| - 1])
  }

  function CallsFor(out: seq<Out>, id: string): seq<Accum> {
    if out == [] then []
    else
      var last := out[|out| - 1];
      CallsFor(out[..|out| - 1], id) + if last.CallOut? && last.id == id then [last.call] else []
  }

  function OpenFor(acc: map<string, Accum>, id: string): Option<Accum> {
    if id in acc then Some(acc[id]) else None
  }

  lemma {:induction false} CallsForConcat(a: seq<Out>, b: seq<Out>, id: string)
    ensures CallsFor(a + b, id) == CallsFor(a, id) + CallsFor(b, id)
  {
    if b == [] {
      assert a + b == a;
    } else {
      CallsForConcat(a, b[..|b| - 1], id);
      assert (a + b)[..|a + b| - 1] == a + b[..|b| - 1];
    }
  }

  predicate Agrees(s: State, ms: seq<Mark>, id: string) {
    Alone(s, id) == OneRun(ms)
  }

  /** What one event does to one item. */
  function OneEvent(o: One, e: Event, id: string): One {
    if MarkOf(e, id) == [] then o else OneStep(o, MarkOf(e, id)[0])
  }

  predicate AboutCalls(e: Event) {
    e.AddedCall? || e.ArgsDelta? || e.DoneCall?
  }

  lemma SaysNoCall(out: seq<Out>, e: Event, id: string)
    ensures CallsFor(out + Says(e), id) == CallsFor(out, id) && out + [] == out
  {
    if Says(e) == [] {
      assert out + [] == out;
    } else {
      assert Says(e) == [Says(e)[0]];
      assert CallsFor(out, id) + [] == CallsFor(out, id);
    }
  }

  lemma OtherStep(s: State, e: Event, id: string)
    requires s.end.None? && !AboutCalls(e)
    ensures Step(s, e).acc == s.acc && CallsFor(Step(s, e).out, id) == CallsFor(s.out, id) && MarkOf(e, id) == []
  {
    if e.Completed? {
      var t := Complete(s, e.result);
      assert CallsFor(s.out, id) + [] == CallsFor(s.out, id);
    } else {
      SaysNoCall(s.out, e, id);
    }
  }

  function Alone(s: State, id: string): One {
    One(OpenFor(s.acc, id), CallsFor(s.out, id))
  }

  lemma AddStep(s: State, i: string, name: string, id: string)
    requires s.end.None?
    ensures Alone(Step(s, AddedCall(i, name)), id) == if i == id then OneStep(Alone(s, id), Add(name)) else Alone(s, id)
  {
  }

  lemma ArgsStep(s: State, i: string, callId: string, args: string, id: string)
    requires s.end.None?
    ensures Alone(Step(s, ArgsDelta(i, callId, args)), id) == if i == id && id != ""
        then OneStep(Alone(s, id), Arg(callId, args)) else Alone(s, id)
  {
  }

  lemma OpenWithout(acc: map<string, Accum>, i: string, id: string)
    ensures OpenFor(acc - {i}, id) == if i == id then None else OpenFor(acc, id)
  {
  }

  lemma DoneStep(s: State, i: string, id: string)
    requires s.end.None?
    ensures Alone(Step(s, DoneCall(i)), id) == if i == id then OneStep(Alone(s, id), Done) else Alone(s, id)
  {
    if i in s.acc {
      var call := CallOut(i, s.acc[i]);
      assert Step(s, DoneCall(i)).out == s.out + [call] && Step(s, DoneCall(i)).acc == s.acc - {i};
      OpenWithout(s.acc, i, id);
      if i != id {
        assert CallsFor(s.out, id) + [] == CallsFor(s.out, id);
      }
    } else {
      assert Step(s, DoneCall(i)) == s;
    }
  }

  lemma StepIsOneEvent(s: State, e: Event, id: string)
    requires s.end.None?
    ensures Alone(Step(s, e), id) == OneEvent(Alone(s, id), e, id)
  {
    match e
    case AddedCall(i, name) => AddStep(s, i, name, id);
    case ArgsDelta(i, callId, args) => ArgsStep(s, i, callId, args, id);
    case DoneCall(i) => DoneStep(s, i, id);
    case _ => OtherStep(s, e, id);
  }

  lemma StepAgrees(s: State, e: Event, ms: seq<Mark>, id: string)
    requires Agrees(s, ms, id) && s.end.None?
    ensures Agrees(Step(s, e), ms + MarkOf(e, id), id)
  {
    StepIsOneEvent(s, e, id);
    if MarkOf(e, id) == [] {
      assert ms + [] == ms;
    } else {
      var m := MarkOf(e, id)[0];
      assert (ms + [m])[..|ms|] == ms;
    }
  }

  /** Whatever the interleaving, each item behaves as if it were alone: its open call and the calls sent
      for it are determined by its own events. */
  lemma {:induction false} ItemsAreIndependent(events: seq<Event>, id: string)
    ensures Agrees(Run(events), Marks(events, id), id)
    decreases |events|
  {
    if events != [] {
      var front := events[..|events| - 1];
      ItemsAreIndependent(front, id);
      if Run(front).end.None? {
        StepAgrees(Run(front), events[|events| - 1], Marks(front, id), id);
      } else {
        assert Marks(front, id) + [] == Marks(front, id);
      }
    }
  }

  // ----- nothing is lost -----

  function ArgsOf(ms: seq<Mark>): string {
    if ms == [] then "" else ArgsOf(ms[..|ms| - 1]) + if ms[|ms| - 1].Arg? then ms[|ms| - 1].args else ""
  }

  function FirstCallId(ms: seq<Mark>): string {
    if ms == [] then ""
    else
      var before := FirstCallId(ms[..|ms| - 1]);
      if before == "" && ms[|ms| - 1].Arg? then ms[|ms| - 1].callId else before
  }

  function Joined(calls: seq<Accum>): string {
    if calls == [] then "" else Joined(calls[..|calls| - 1]) + calls[|calls| - 1].args
  }

  function OpenArgs(o: One): string {
    if o.open.Some? then o.open.value.args else ""
  }

  /** An item that is added once and then only extended holds its name, its first call id and all its
      arguments in order; completing it sends exactly that. */
  lemma {:induction false} ItemGathers(name: string, ms: seq<Mark>)
    requires forall k :: 0 <= k < |ms| ==> ms[k].Arg?
    ensures OneRun([Add(name)] + ms) == One(Some(Accum(FirstCallId(ms), name, ArgsOf(ms))), [])
    ensures OneRun([Add(name)] + ms + [Done]) == One(None, [Accum(FirstCallId(ms), name, ArgsOf(ms))])
  {
    var all := [Add(name)] + ms;
    assert (all + [Done])[..|all|] == all;
    if ms == [] {
      assert all[..0] == [];
    } else {
      ItemGathers(name, ms[..|ms| - 1]);
      assert all[..|all| - 1] == [Add(name)] + ms[..|ms| - 1];
    }
  }

  /** No argument arrives while the item is not open, and it is not added again while it has some. */
  predicate Clean(ms: seq<Mark>) {
    ms == [] ||
    (var front, m, o := ms[..|ms| - 1], ms[|ms| - 1], OneRun(ms[..|ms| - 1]);
     Clean(front) && (m.Arg? && m.args != "" ==> o.open.Some?) && (m.Add? ==> OpenArgs(o) == ""))
  }

  /** What is sent and what is open are all of `args` exactly when `clean`. */
  predicate Keeps(o: One, args: string, clean: bool) {
    && |Joined(o.sent)| + |OpenArgs(o)| <= |args|
    && (|Joined(o.sent)| + |OpenArgs(o)| == |args| <==> clean)
    && (clean ==> Joined(o.sent) + OpenArgs(o) == args)
  }

  lemma ArgKeeps(o: One, args: string, clean: bool, m: Mark)
    requires Keeps(o, args, clean) && m.Arg?
    ensures Keeps(OneStep(o, m), args + m.args, clean && (m.args != "" ==> o.open.Some?))
  {
    if o.open.Some? {
      assert Joined(o.sent) + (OpenArgs(o) + m.args) == (Joined(o.sent) + OpenArgs(o)) + m.args;
    } else if m.args == "" {
      assert args + m.args == args;
    }
  }

  /** All arguments of an item are sent or still open if and only if its events are clean; otherwise some
      are gone. */
  lemma {:induction false} KeptIffClean(ms: seq<Mark>)
    ensures Keeps(OneRun(ms), ArgsOf(ms), Clean(ms))
  {
    if ms != [] {
      var front, m := ms[..|ms| - 1], ms[|ms| - 1];
      KeptIffClean(front);
      if m.Arg? {
        ArgKeeps(OneRun(front), ArgsOf(front), Clean(front), m);
      } else {
        assert ArgsOf(front) + "" == ArgsOf(front);
      }
    }
  }

  // ----- the end of the input -----

  /** The calls flushed at the end of the input: each open one once, in any order. */
  ghost predicate IsTail(acc: map<string, Accum>, ids: seq<string>, tail: seq<Out>) {
    && |ids| == |tail| && (forall j, k :: 0 <= j < k < |ids| ==> ids[j] != ids[k])
    && (forall id :: id in ids <==> id in acc)
    && forall k :: 0 <= k < |ids| ==> ids[k] in acc && tail[k] == CallOut(ids[k], acc[ids[k]])
  }

  lemma {:induction false} TailFor(acc: map<string, Accum>, ids: seq<string>, tail: seq<Out>, id: string)
    requires |ids| == |tail| && (forall j, k :: 0 <= j < k < |ids| ==> ids[j] != ids[k])
    requires forall k :: 0 <= k < |ids| ==> ids[k] in acc && tail[k] == CallOut(ids[k], acc[ids[k]])
    ensures CallsFor(tail, id) == if id in ids then [acc[id]] else []
  {
    if tail != [] {
      var n := |tail| - 1;
      TailFor(acc, ids[..n], tail[..n], id);
      assert ids == ids[..n] + [ids[n]];
    }
  }

  /** One turn of the loop. */
  method Read(s: State, e: Event) returns (t: State)
    requires s.end.None?
    ensures t == Step(s, e)
  {
    t := s;
    match e {
      case Cancelled =>
        t := t.(end := Some(ContextError));
      case ScanFailed =>
        t := t.(end := Some(ScanError));
      case Finished =>
        t := t.(end := Some(DoneMarker));
      case Created(response) =>
        if response.Some? {
          t := t.(response := response.value);
        }
      case AddedCall(id, name) =>
        t := t.(acc := t.acc[id := Accum("", name, "")]);
      case ArgsDelta(id, callId, args) =>
        if id != "" && id in t.acc {
          var a := t.acc[id];
          if a.callId == "" && callId != "" {
            a := a.(callId := callId);
          }
          t := t.(acc := t.acc[id := a.(args := a.args + args)]);
        }
      case DoneCall(id) =>
        if id in t.acc {
          t := t.(out := t.out + [CallOut(id, t.acc[id])], acc := t.acc - {id});
        }
      case Completed(result) =>
        if result.Some? {
          t := t.(usage := result.value.usage);
          if result.value.incomplete.Some? {
            t := t.(incomplete := result.value.incomplete.value);
          }
        }
        t := t.(out := t.out + [Meta(FinishReason(t.incomplete), t.usage, t.response)]);
      case _ =>
        t := t.(out := t.out + Says(e));
    }
  }

  method StreamResponses(events: seq<Event>) returns (s: State, tail: seq<Out>, ghost ids: seq<string>)
    ensures s == Run(events)
    ensures if s.end.Some? then tail == [] else IsTail(s.acc, ids, tail)
  {
    s, tail, ids := START, [], [];
    for i := 0 to |events|
      invariant s == Run(events[..i]) && s.end.None?
    {
      assert events[..i + 1][..i] == events[..i];
      s := Read(s, events[i]);
      if s.end.Some? {
        NoMoreAfterEnd(events, i + 1);
        return;
      }
    }
    assert events[..|events|] == events;
    var todo := s.acc.Keys;
    while todo != {}
      invariant todo <= s.acc.Keys && (forall id :: id in ids <==> id in s.acc.Keys - todo)
      invariant |ids| == |tail| && (forall j, k :: 0 <= j < k < |ids| ==> ids[j] != ids[k])
      invariant forall k :: 0 <= k < |ids| ==> ids[k] in s.acc && tail[k] == CallOut(ids[k], s.acc[ids[k]])
      decreases |todo|
    {
      var id :| id in todo;
      assert id !in ids;
      tail, ids := tail + [CallOut(id, s.acc[id])], ids + [id];
      todo := todo - {id};
    }
  }

  lemma {:induction false} NoMoreAfterEnd(events: seq<Event>, n: nat)
    requires n <= |events| && Run(events[..n]).end.Some?
    ensures Run(events) == Run(events[..n])
    decreases |events|
  {
    if n < |events| {
      var front := events[..|events| - 1];
      assert front[..n] == events[..n];
      NoMoreAfterEnd(front, n);
    } else {
      assert events[..n] == events;
    }
  }

  predicate Fails(s: State) {
    s.end.Some? && !s.end.value.DoneMarker?
  }

  /** For every stream and item: when the input just ends, all of the item's arguments are sent if and only if
      its events are clean; when it ends in `[DONE]` or in an error, if and only if moreover no argument is left
      open. So they are lost without an error, clean as the events may be, if and only if `[DONE]` comes while
      some are open. */
  lemma AllSentIff(events: seq<Event>, ids: seq<string>, tail: seq<Out>, id: string)
    requires if Run(events).end.Some? then tail == [] else IsTail(Run(events).acc, ids, tail)
    ensures Joined(CallsFor(Run(events).out + tail, id)) == ArgsOf(Marks(events, id)) <==>
            Clean(Marks(events, id)) && (Run(events).end.Some? ==> OpenArgs(OneRun(Marks(events, id))) == "")
    ensures Clean(Marks(events, id)) ==>
              (Joined(CallsFor(Run(events).out + tail, id)) != ArgsOf(Marks(events, id)) && !Fails(Run(events)) <==>
               Run(events).end == Some(DoneMarker) && OpenArgs(OneRun(Marks(events, id))) != "")
  {
    var s, o := Run(events), OneRun(Marks(events, id));
    ItemsAreIndependent(events, id);
    KeptIffClean(Marks(events, id));
    CallsForConcat(s.out, tail, id);
    if s.end.None? {
      TailFor(s.acc, ids, tail, id);
      FlushedToo(o);
    } else {
      assert o.sent + [] == o.sent;
      assert OpenArgs(o) == "" ==> Joined(o.sent) + OpenArgs(o) == Joined(o.sent);
    }
  }

  lemma FlushedToo(o: One)
    ensures Joined(o.sent + if o.open.Some? then [o.open.value] else []) == Joined(o.sent) + OpenArgs(o)
  {
    assert o.sent + [] == o.sent && Joined(o.sent) + "" == Joined(o.sent);
  }

  /** What goes wrong: `[DONE]` before an item is completed loses its call without an error. */
  lemma DoneLosesOpenCall()
    ensures var events := [AddedCall("fc_1", "search"), ArgsDelta("fc_1", "call_1", "q"), Finished];
            Run(events).end == Some(DoneMarker) && Run(events).out == [] && ArgsOf(Marks(events, "fc_1")) == "q"
  {
    var two := [AddedCall("fc_1", "search"), ArgsDelta("fc_1", "call_1", "q")];
    CallIsOpen(two);
    OneMore(two, Finished, "fc_1");
    assert two + [Finished] == [AddedCall("fc_1", "search"), ArgsDelta("fc_1", "call_1", "q"), Finished];
    assert Marks(two, "fc_1") + [] == Marks(two, "fc_1");
  }

  lemma CallIsOpen(events: seq<Event>)
    requires events == [AddedCall("fc_1", "search"), ArgsDelta("fc_1", "call_1", "q")]
    ensures Run(events).end.None? && Run(events).out == []
    ensures ArgsOf(Marks(events, "fc_1")) == "q"
  {
    var add, args := events[0], events[1];
    OneMore([], add, "fc_1");
    assert [] + [add] == [add];
    assert Run([add]) == START.(acc := map["fc_1" := Accum("", "search", "")]);
    assert Marks([add], "fc_1") == [Add("search")];
    OneMore([add], args, "fc_1");
    assert [add] + [args] == events;
    TwoMarks(Marks(events, "fc_1"), "search", "call_1", "q");
  }

  lemma TwoMarks(ms: seq<Mark>, name: string, callId: string, args: string)
    requires ms == [Add(name)] + [Arg(callId, args)]
    ensures ArgsOf(ms) == args
  {
    ArgsOne([], Add(name));
    ArgsOne([Add(name)], Arg(callId, args));
    assert [] + [Add(name)] == [Add(name)] && "" + "" == "" && "" + args == args;
  }

  lemma ArgsOne(ms: seq<Mark>, m: Mark)
    ensures ArgsOf(ms + [m]) == ArgsOf(ms) + if m.Arg? then m.args else ""
  {
    assert (ms + [m])[..|ms|] == ms;
  }

  lemma OneMore(events: seq<Event>, e: Event, id: string)
    ensures Run(events + [e]) == Step(Run(events), e)
    ensures Marks(events + [e], id) == Marks(events, id) + if Run(events).end.None? then MarkOf(e, id) else []
  {
    assert (events + [e])[..|events|] == events;
  }
}
