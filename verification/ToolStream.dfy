/** Reassembling tool calls from the fragments of a chat stream. */
module ToolStream {
  import opened Wrappers

  /** A fragment of a tool call; fragments without an index are ignored. */
  datatype Delta = Delta(index: Option<int>, id: string, name: string, args: string)

  /** `sealed` is the encrypted reasoning that travels with `reasoning`. */
  datatype Choice = Choice(content: string, reasoning: string, sealed: string, calls: seq<Delta>,
      finish: Option<string>)

  datatype Usage = Usage(prompt: int, completion: int, total: int)

  /** One line of the stream: blank, comment or other lines are `Ignored`, `Finished` is `[DONE]`; at
      `Cancelled` the context is found cancelled, at `ScanFailed` no line can be read. */
  datatype Event =
    | Ignored | Cancelled | ScanFailed | Malformed | Finished
    | Data(usage: Option<Usage>, choices: seq<Choice>)

  datatype Accum = Accum(id: string, name: string, args: string)

  datatype Call = Call(index: int, id: string, name: string, args: string)

  datatype Out =
    | UsageOut(usage: Usage)
    | ReasoningOut(text: string, sealed: string)
    | MessageOut(content: string, calls: seq<Call>, finish: Option<string>)

  datatype End = Flushed | ParseError | ContextError | ScanError

  /** The open calls by index, what was sent, and how the stream ended. */
  datatype State = State(acc: map<int, Accum>, out: seq<Out>, end: Option<End>)

  const START := State(map[], [], None)

  // ----- accumulating -----

  function Prior(acc: map<int, Accum>, i: int): Accum {
    if i in acc then acc[i] else Accum("", "", "")
  }

  function Latest(new_: string, old_: string): string {
    if new_ != "" then new_ else old_
  }

  function Fed(st: Accum, d: Delta): Accum {
    Accum(Latest(d.id, st.id), Latest(d.name, st.name), st.args + d.args)
  }

  function Feed(acc: map<int, Accum>, d: Delta): map<int, Accum> {
    match d.index
    case None => acc
    case Some(i) => acc[i := Fed(Prior(acc, i), d)]
  }

  function FeedAll(acc: map<int, Accum>, ds: seq<Delta>): map<int, Accum> {
    if ds == [] then acc else Feed(FeedAll(acc, ds[..|ds| - 1]), ds[|ds| - 1])
  }

  /** What the fragments of one index say, whatever lies between them. */
  function ArgsOf(ds: seq<Delta>, i: int): string {
    if ds == [] then "" else ArgsOf(ds[..|ds| - 1], i) + if ds[|ds| - 1].index == Some(i) then ds[|ds| - 1].args else ""
  }

  function LastId(ds: seq<Delta>, i: int): string {
    if ds == [] then ""
    else
      var d := ds[|ds| - 1];
      Latest(if d.index == Some(i) then d.id else "", LastId(ds[..|ds| - 1], i))
  }

  function LastName(ds: seq<Delta>, i: int): string {
    if ds == [] then ""
    else
      var d := ds[|ds| - 1];
      Latest(if d.index == Some(i) then d.name else "", LastName(ds[..|ds| - 1], i))
  }

  predicate Mentions(ds: seq<Delta>, i: int) {
    ds != [] && (ds[|ds| - 1].index == Some(i) || Mentions(ds[..|ds| - 1], i))
  }

  /** An accumulated call with the fragments `ds` added. */
  function Gathered(ds: seq<Delta>, i: int, prior: Accum): Accum {
    Accum(Latest(LastId(ds, i), prior.id), Latest(LastName(ds, i), prior.name), prior.args + ArgsOf(ds, i))
  }

  lemma GatheredOne(ds: seq<Delta>, i: int, prior: Accum)
    requires ds != []
    ensures var before, d := Gathered(ds[..|ds| - 1], i, prior), ds[|ds| - 1];
            Gathered(ds, i, prior) == if d.index == Some(i) then Fed(before, d) else before
  {
    var args, d := ArgsOf(ds[..|ds| - 1], i), ds[|ds| - 1];
    assert prior.args + (args + d.args) == prior.args + args + d.args;
    assert args + "" == args;
  }

  /** The accumulator holds, per index, the last id and name and all arguments in order. */
  lemma {:induction false} FeedAllMeans(acc: map<int, Accum>, ds: seq<Delta>, i: int)
    ensures i in FeedAll(acc, ds) <==> i in acc || Mentions(ds, i)
    ensures Prior(FeedAll(acc, ds), i) == Gathered(ds, i, Prior(acc, i))
  {
    if ds != [] {
      FeedAllMeans(acc, ds[..|ds| - 1], i);
      GatheredOne(ds, i, Prior(acc, i));
    } else {
      assert Prior(acc, i).args + "" == Prior(acc, i).args;
    }
  }

  lemma {:induction false} FeedAllConcat(acc: map<int, Accum>, ds: seq<Delta>, es: seq<Delta>)
    ensures FeedAll(acc, ds + es) == FeedAll(FeedAll(acc, ds), es)
  {
    if es == [] {
      assert ds + es == ds;
    } else {
      FeedAllConcat(acc, ds, es[..|es| - 1]);
      assert (ds + es)[..|ds + es| - 1] == ds + es[..|es| - 1];
    }
  }

  /** Two interleavings of the same fragments, or of the same arguments cut differently. */
  ghost predicate SameCalls(ds: seq<Delta>, es: seq<Delta>) {
    forall i :: SameCall(ds, es, i)
  }

  predicate SameCall(ds: seq<Delta>, es: seq<Delta>, i: int) {
    Mentions(ds, i) == Mentions(es, i) && LastId(ds, i) == LastId(es, i) && LastName(ds, i) == LastName(es, i)
        && ArgsOf(ds, i) == ArgsOf(es, i)
  }

  lemma InterleavingIsIrrelevant(acc: map<int, Accum>, ds: seq<Delta>, es: seq<Delta>)
    requires SameCalls(ds, es)
    ensures FeedAll(acc, ds) == FeedAll(acc, es)
  {
    assert forall i :: SameCall(ds, es, i);
    var a, b := FeedAll(acc, ds), FeedAll(acc, es);
    forall i
      ensures i in a <==> i in b
      ensures i in a ==> a[i] == b[i]
    {
      SameGathered(acc, ds, es, i);
    }
  }

  lemma SameGathered(acc: map<int, Accum>, ds: seq<Delta>, es: seq<Delta>, i: int)
    requires SameCall(ds, es, i)
    ensures i in FeedAll(acc, ds) <==> i in FeedAll(acc, es)
    ensures i in FeedAll(acc, ds) ==> FeedAll(acc, ds)[i] == FeedAll(acc, es)[i]
  {
    FeedAllMeans(acc, ds, i);
    FeedAllMeans(acc, es, i);
  }

  // ----- flushing -----

  predicate Ascending(s: seq<int>) {
    forall j, k :: 0 <= j < k < |s| ==> s[j] < s[k]
  }

  ghost predicate Lists(s: seq<int>, keys: set<int>) {
    forall i :: i in s <==> i in keys
  }

  lemma Element<T>(s: set<T>) returns (x: T)
    requires s != {}
    ensures x in s
  {
    x :| x in s;
  }

  lemma {:induction false} HasMin(s: set<int>)
    requires s != {}
    ensures exists m :: m in s && forall x :: x in s ==> m <= x
  {
    var m := Element(s);
    if s != {m} {
      HasMin(s - {m});
      var n :| n in s - {m} && forall x :: x in s - {m} ==> n <= x;
      var least := if m <= n then m else n;
      forall x | x in s
        ensures least <= x
      {
        assert x == m || x in s - {m};
      }
      assert least in s;
    }
  }

  function Min(s: set<int>): (m: int)
    requires s != {}
    ensures m in s && forall x :: x in s ==> m <= x
  {
    HasMin(s);
    var m :| m in s && forall x :: x in s ==> m <= x;
    m
  }

  /** The keys in ascending order. */
  function Sorted(keys: set<int>): (s: seq<int>)
    ensures forall k :: 0 <= k < |s| ==> s[k] in keys
    decreases |keys|
  {
    if keys == {} then [] else [Min(keys)] + Sorted(keys - {Min(keys)})
  }

  lemma {:induction false} SortedIsSorted(keys: set<int>)
    ensures Ascending(Sorted(keys)) && Lists(Sorted(keys), keys)
    decreases |keys|
  {
    if keys != {} {
      var m := Min(keys);
      SortedIsSorted(keys - {m});
      var rest := Sorted(keys - {m});
      forall k | 0 <= k < |rest|
        ensures m < rest[k]
      {
        assert rest[k] in keys - {m};
      }
    }
  }

  lemma SomeNumber(s: seq<int>) returns (x: int)
    ensures s != [] ==> x in s
  {
    x := if s != [] then s[0] else 0;
  }

  lemma {:induction false} SortedIsUnique(keys: set<int>, s: seq<int>)
    requires Ascending(s) && Lists(s, keys)
    ensures s == Sorted(keys)
    decreases |keys|
  {
    if keys == {} {
      var x := SomeNumber(s);
    } else {
      var m := Min(keys);
      assert m in s && s[0] in keys;
      var j :| 0 <= j < |s| && s[j] == m;
      assert j == 0;
      var rest := s[1..];
      assert s == [m] + rest;
      assert m !in rest;
      assert Lists(rest, keys - {m});
      SortedIsUnique(keys - {m}, rest);
    }
  }

  function CallOf(acc: map<int, Accum>, i: int): Call
    requires i in acc
  {
    Call(i, acc[i].id, acc[i].name, acc[i].args)
  }

  /** What `flushToolAccumToolCalls` makes of the accumulator. */
  function Flush(acc: map<int, Accum>): seq<Call> {
    var keys := Sorted(acc.Keys);
    seq(|keys|, k requires 0 <= k < |keys| => CallOf(acc, keys[k]))
  }

  /** `sort.Ints`, of distinct numbers. */
  method SortInts(s: seq<int>, ghost keys: set<int>) returns (t: seq<int>)
    requires Lists(s, keys) && forall j, k :: 0 <= j < k < |s| ==> s[j] != s[k]
    ensures t == Sorted(keys)
  {
    t := [];
    ghost var seen: set<int> := {};
    for i := 0 to |s|
      invariant Ascending(t) && Lists(t, seen) && Lists(s[..i], seen)
    {
      assert s[i] !in s[..i];
      var pos := |t|;
      while pos > 0 && t[pos - 1] > s[i]
        invariant 0 <= pos <= |t| && forall k :: pos <= k < |t| ==> t[k] > s[i]
      {
        pos := pos - 1;
      }
      Placed(t, seen, s[i], pos);
      assert s[..i + 1] == s[..i] + [s[i]];
      seen := seen + {s[i]};
      t := t[..pos] + [s[i]] + t[pos..];
    }
    assert s[..|s|] == s;
    forall x
      ensures x in t <==> x in keys
    {
      assert x in s <==> x in seen;
    }
    SortedIsUnique(keys, t);
  }

  lemma Placed(t: seq<int>, seen: set<int>, x: int, pos: nat)
    requires Ascending(t) && Lists(t, seen) && x !in seen && pos <= |t|
    requires (forall k :: pos <= k < |t| ==> t[k] > x) && (pos > 0 ==> t[pos - 1] <= x)
    ensures Ascending(t[..pos] + [x] + t[pos..]) && Lists(t[..pos] + [x] + t[pos..], seen + {x})
  {
    forall k | 0 <= k < pos
      ensures t[k] < x
    {
      assert t[k] in t;
    }
    PlacedAscends(t, x, pos);
    var a, b := t[..pos], t[pos..];
    assert t == a + b;
    forall i
      ensures i in a + [x] + b <==> i in seen + {x}
    {
      assert i in t <==> i in a || i in b;
    }
  }

  lemma PlacedAscends(t: seq<int>, x: int, pos: nat)
    requires Ascending(t) && pos <= |t| && (forall k :: pos <= k < |t| ==> t[k] > x) && forall k :: 0 <= k < pos ==>
        t[k] < x
    ensures Ascending(t[..pos] + [x] + t[pos..])
  {
  }

  /** `flushToolAccumToolCalls`, collecting the keys in any order. */
  method FlushCalls(acc: map<int, Accum>) returns (calls: seq<Call>)
    ensures calls == Flush(acc)
  {
    var indices: seq<int> := [];
    var todo := acc.Keys;
    while todo != {}
      invariant todo <= acc.Keys && Lists(indices, acc.Keys - todo)
      invariant forall j, k :: 0 <= j < k < |indices| ==> indices[j] != indices[k]
      decreases |todo|
    {
      ghost var some := Element(todo);
      var i :| i in todo;
      assert i !in indices;
      indices := indices + [i];
      todo := todo - {i};
    }
    indices := SortInts(indices, acc.Keys);
    calls := [];
    for k := 0 to |indices|
      invariant calls == Flush(acc)[..k]
    {
      calls := calls + [CallOf(acc, indices[k])];
    }
  }

  predicate Has(calls: seq<Call>, i: int) {
    exists k :: 0 <= k < |calls| && calls[k].index == i
  }

  /** What a flush means in terms of the fragments since the last one: every index they mention once, in
      ascending order, with the last id and name and all its arguments in order. */
  lemma FlushGathers(ds: seq<Delta>)
    ensures var calls := Flush(FeedAll(map[], ds));
            && (forall j, k :: 0 <= j < k < |calls| ==> calls[j].index < calls[k].index)
            && (forall k :: 0 <= k < |calls| ==> calls[k] == Gathering(ds, calls[k].index))
            && forall i :: Mentions(ds, i) <==> Has(calls, i)
  {
    var acc := FeedAll(map[], ds);
    SortedIsSorted(acc.Keys);
    var calls := Flush(acc);
    forall k | 0 <= k < |calls|
      ensures calls[k] == Gathering(ds, calls[k].index)
    {
      OpenCallGathers(ds, calls[k].index);
    }
    forall i
      ensures Mentions(ds, i) <==> Has(calls, i)
    {
      OpenCallGathers(ds, i);
      FlushHas(acc, i);
    }
  }

  lemma OpenCallGathers(ds: seq<Delta>, i: int)
    ensures var acc := FeedAll(map[], ds);
            (i in acc <==> Mentions(ds, i)) && (i in acc ==> CallOf(acc, i) == Gathering(ds, i))
  {
    FeedAllMeans(map[], ds, i);
    assert "" + ArgsOf(ds, i) == ArgsOf(ds, i);
  }

  lemma FlushHas(acc: map<int, Accum>, i: int)
    ensures Has(Flush(acc), i) <==> i in acc
  {
    SortedIsSorted(acc.Keys);
    var keys, calls := Sorted(acc.Keys), Flush(acc);
    if i in keys {
      var k :| 0 <= k < |keys| && keys[k] == i;
      assert calls[k].index == i;
    }
  }

  function Gathering(ds: seq<Delta>, i: int): Call {
    Call(i, LastId(ds, i), LastName(ds, i), ArgsOf(ds, i))
  }

  // ----- the stream -----

  function MapFinish(reason: string): string {
    if reason == "function_call" || reason == "tool_calls" then "tool_calls" else reason
  }

  /** The end of a choice: its text and, on a finish reason, the flushed calls are sent. */
  function Message(c: Choice, calls: seq<Call>): seq<Out> {
    (if c.reasoning != "" then [ReasoningOut(c.reasoning, c.sealed)] else [])
    + if c.content != "" || calls != [] || c.finish.Some?
      then [MessageOut(c.content, calls, if c.finish.Some? then Some(MapFinish(c.finish.value)) else None)] else []
  }

  function FeedChoice(s: State, c: Choice): State {
    var acc := FeedAll(s.acc, c.calls);
    if c.finish.Some? then State(map[], s.out + Message(c, Flush(acc)), s.end)
        else State(acc, s.out + Message(c, []), s.end)
  }

  function FeedChoices(s: State, cs: seq<Choice>): State {
    if cs == [] then s else FeedChoice(FeedChoices(s, cs[..|cs| - 1]), cs[|cs| - 1])
  }

  function Step(s: State, e: Event): State {
    if s.end.Some? then s
    else
      match e
      case Ignored => s
      case Cancelled => s.(end := Some(ContextError))
      case ScanFailed => s.(end := Some(ScanError))
      case Malformed => s.(end := Some(ParseError))
      case Finished =>
        State(map[], s.out + (if s.acc != map[] then [MessageOut("", Flush(s.acc), None)] else []), Some(Flushed))
      case Data(usage, choices) =>
        FeedChoices(if usage.Some? then s.(out := s.out + [UsageOut(usage.value)]) else s, choices)
  }

  function Steps(s: State, events: seq<Event>): State {
    if events == [] then s else Step(Steps(s, events[..|events| - 1]), events[|events| - 1])
  }

  /** The state after reading `events`; if it has no `end`, the input ended without `[DONE]`. */
  function Run(events: seq<Event>): State {
    Steps(START, events)
  }

  method StreamEvents(events: seq<Event>) returns (s: State)
    ensures s == Run(events)
  {
    var acc: map<int, Accum>, out: seq<Out> := map[], [];
    for i := 0 to |events|
      invariant State(acc, out, None) == Run(events[..i])
    {
      assert events[..i + 1][..i] == events[..i];
      match events[i] {
        case Ignored =>
        case Cancelled =>
          NoMoreAfterEnd(events, i + 1);
          return State(acc, out, Some(ContextError));
        case ScanFailed =>
          NoMoreAfterEnd(events, i + 1);
          return State(acc, out, Some(ScanError));
        case Malformed =>
          NoMoreAfterEnd(events, i + 1);
          return State(acc, out, Some(ParseError));
        case Finished =>
          if acc != map[] {
            var calls := FlushCalls(acc);
            out := out + [MessageOut("", calls, None)];
          }
          NoMoreAfterEnd(events, i + 1);
          return State(map[], out, Some(Flushed));
        case Data(usage, choices) =>
          if usage.Some? {
            out := out + [UsageOut(usage.value)];
          }
          acc, out := ReadChoices(acc, out, choices);
      }
    }
    assert events[..|events|] == events;
    s := State(acc, out, None);
  }

  method ReadDeltas(acc0: map<int, Accum>, calls: seq<Delta>) returns (acc: map<int, Accum>)
    ensures acc == FeedAll(acc0, calls)
  {
    acc := acc0;
    for k := 0 to |calls|
      invariant acc == FeedAll(acc0, calls[..k])
    {
      assert calls[..k + 1][..k] == calls[..k];
      var tc := calls[k];
      if tc.index.Some? {
        var st := Prior(acc, tc.index.value);
        acc := acc[tc.index.value := Accum(Latest(tc.id, st.id), Latest(tc.name, st.name), st.args + tc.args)];
      }
    }
    assert calls[..|calls|] == calls;
  }

  method ReadChoice(acc0: map<int, Accum>, out0: seq<Out>, choice: Choice) returns (acc: map<int, Accum>, out: seq<Out>)
    ensures State(acc, out, None) == FeedChoice(State(acc0, out0, None), choice)
  {
    acc := ReadDeltas(acc0, choice.calls);
    var calls: seq<Call> := [];
    if choice.finish.Some? && acc != map[] {
      calls := FlushCalls(acc);
      acc := map[];
    } else if choice.finish.Some? {
      assert Flush(acc) == [];
    }
    out := out0 + Message(choice, calls);
  }

  method ReadChoices(acc0: map<int, Accum>, out0: seq<Out>, choices: seq<Choice>)
      returns (acc: map<int, Accum>, out: seq<Out>)
    ensures State(acc, out, None) == FeedChoices(State(acc0, out0, None), choices)
  {
    acc, out := acc0, out0;
    for j := 0 to |choices|
      invariant State(acc, out, None) == FeedChoices(State(acc0, out0, None), choices[..j])
    {
      assert choices[..j + 1][..j] == choices[..j];
      acc, out := ReadChoice(acc, out, choices[j]);
    }
    assert choices[..|choices|] == choices;
  }

  lemma {:induction false} NoMoreAfterEnd(events: seq<Event>, n: nat)
    requires n <= |events| && Run(events[..n]).end.Some?
    ensures Run(events) == Run(events[..n])
    decreases |events|
  {
    if n < |events| {
      var front := events[..|events| - 1];
      assert front[..n] == events[..n];
      NoMoreAfterEnd(front, n);
    } else {
      assert events[..n] == events;
    }
  }

  // ----- nothing is lost or invented -----

  /** The arguments sent for one index, over all messages. */
  function ArgsIn(calls: seq<Call>, i: int): string {
    if calls == [] then "" else ArgsIn(calls[..|calls| - 1], i) + if calls[|calls| - 1].index == i
        then calls[|calls| - 1].args else ""
  }

  function Emitted(out: seq<Out>, i: int): string {
    if out == [] then "" else Emitted(out[..|out| - 1], i) + EmittedBy(out[|out| - 1], i)
  }

  function EmittedBy(o: Out, i: int): string {
    if o.MessageOut? then ArgsIn(o.calls, i) else ""
  }

  /** The fragments of one index, over all choices that were read. */
  function Sent(cs: seq<Choice>, i: int): string {
    if cs == [] then "" else Sent(cs[..|cs| - 1], i) + ArgsOf(cs[|cs| - 1].calls, i)
  }

  function Consumed(events: seq<Event>): seq<Choice> {
    if events == [] then []
    else
      var front, last := events[..|events| - 1], events[|events| - 1];
      Consumed(front) + if Run(front).end.None? && last.Data? then last.choices else []
  }

  /** The fragments since the last finish reason. */
  function Open(cs: seq<Choice>): seq<Delta> {
    if cs == [] then [] else if cs[|cs| - 1].finish.Some? then [] else Open(cs[..|cs| - 1]) + cs[|cs| - 1].calls
  }

  lemma {:induction false} EmittedConcat(a: seq<Out>, b: seq<Out>, i: int)
    ensures Emitted(a + b, i) == Emitted(a, i) + Emitted(b, i)
  {
    if b == [] {
      assert a + b == a;
    } else {
      var front, last := b[..|b| - 1], b[|b| - 1];
      EmittedConcat(a, front, i);
      assert (a + b)[..|a + b| - 1] == a + front;
      Regrouped(Emitted(a, i), Emitted(front, i), EmittedBy(last, i));
    }
  }

  lemma {:induction false} ArgsInAbsent(calls: seq<Call>, i: int)
    requires forall k :: 0 <= k < |calls| ==> calls[k].index != i
    ensures ArgsIn(calls, i) == ""
  {
    if calls != [] {
      ArgsInAbsent(calls[..|calls| - 1], i);
    }
  }

  lemma {:induction false} ArgsInOnce(calls: seq<Call>, i: int, k: nat)
    requires k < |calls| && calls[k].index == i && forall j :: 0 <= j < |calls| && j != k ==> calls[j].index != i
    ensures ArgsIn(calls, i) == calls[k].args
  {
    if k < |calls| - 1 {
      ArgsInOnce(calls[..|calls| - 1], i, k);
    } else {
      ArgsInAbsent(calls[..|calls| - 1], i);
    }
  }

  /** A flush sends exactly what was pending. */
  lemma FlushSendsPending(acc: map<int, Accum>, i: int)
    ensures ArgsIn(Flush(acc), i) == Prior(acc, i).args
  {
    SortedIsSorted(acc.Keys);
    var keys, calls := Sorted(acc.Keys), Flush(acc);
    if i in keys {
      var k :| 0 <= k < |keys| && keys[k] == i;
      ArgsInOnce(calls, i, k);
    } else {
      ArgsInAbsent(calls, i);
    }
  }

  lemma MessageSends(c: Choice, calls: seq<Call>, i: int)
    ensures Emitted(Message(c, calls), i) == ArgsIn(calls, i)
  {
    var a := if c.reasoning != "" then [ReasoningOut(c.reasoning, c.sealed)] else [];
    var m := MessageOut(c.content, calls, if c.finish.Some? then Some(MapFinish(c.finish.value)) else None);
    assert [m][..0] == [] && Emitted([m], i) == ArgsIn(calls, i);
    assert Emitted(a, i) == "";
    EmittedConcat(a, [m], i);
    EmittedConcat(a, [], i);
  }

  /** For one index, what was sent and what is pending make up what was read. */
  predicate Balanced(s: State, read: string, i: int) {
    Emitted(s.out, i) + Prior(s.acc, i).args == read
  }

  lemma Regrouped(x: string, y: string, z: string)
    ensures x + (y + z) == (x + y) + z && x + "" == x && (x + (y + z)) + "" == (x + y) + z
  {
  }

  lemma ChoiceBalances(s: State, c: Choice, read: string, i: int)
    requires Balanced(s, read, i)
    ensures Balanced(FeedChoice(s, c), read + ArgsOf(c.calls, i), i)
  {
    var acc := FeedAll(s.acc, c.calls);
    FeedAllMeans(s.acc, c.calls, i);
    assert Prior(acc, i).args == Prior(s.acc, i).args + ArgsOf(c.calls, i);
    Regrouped(Emitted(s.out, i), Prior(s.acc, i).args, ArgsOf(c.calls, i));
    if c.finish.Some? {
      FlushSendsPending(acc, i);
      MessageSends(c, Flush(acc), i);
      EmittedConcat(s.out, Message(c, Flush(acc)), i);
    } else {
      MessageSends(c, [], i);
      EmittedConcat(s.out, Message(c, []), i);
    }
  }

  lemma {:induction false} ChoicesBalance(s: State, cs: seq<Choice>, read: seq<Choice>, i: int)
    requires Balanced(s, Sent(read, i), i)
    ensures Balanced(FeedChoices(s, cs), Sent(read + cs, i), i)
  {
    if cs == [] {
      assert read + cs == read;
    } else {
      ChoicesBalance(s, cs[..|cs| - 1], read, i);
      ChoiceBalances(FeedChoices(s, cs[..|cs| - 1]), cs[|cs| - 1], Sent(read + cs[..|cs| - 1], i), i);
      assert (read + cs)[..|read + cs| - 1] == read + cs[..|cs| - 1];
    }
  }

  lemma EndBalances(s: State, read: string, i: int)
    requires Balanced(s, read, i) && s.end.None?
    ensures Balanced(Step(s, Finished), read, i)
  {
    var m := MessageOut("", Flush(s.acc), None);
    assert [m][..0] == [] && Emitted([m], i) == ArgsIn(Flush(s.acc), i);
    FlushSendsPending(s.acc, i);
    EmittedConcat(s.out, [m], i);
    assert s.out + [] == s.out;
  }

  /** Conservation, for every stream and every index: the arguments sent, then those still pending, are the
      fragments read, in order. */
  lemma {:induction false} Conserves(events: seq<Event>, i: int)
    ensures Balanced(Run(events), Sent(Consumed(events), i), i)
    decreases |events|
  {
    if events != [] {
      var front, last := events[..|events| - 1], events[|events| - 1];
      var s := Run(front);
      Conserves(front, i);
      assert Consumed(front) + [] == Consumed(front);
      if s.end.None? {
        match last
        case Finished => EndBalances(s, Sent(Consumed(front), i), i);
        case Data(usage, choices) =>
          var u := if usage.Some? then s.(out := s.out + [UsageOut(usage.value)]) else s;
          if usage.Some? {
            assert [UsageOut(usage.value)][..0] == [];
            EmittedConcat(s.out, [UsageOut(usage.value)], i);
            assert Emitted(s.out, i) + "" == Emitted(s.out, i);
          }
          ChoicesBalance(u, choices, Consumed(front), i);
        case _ =>
      }
    }
  }

  lemma {:induction false} ChoicesStayOpen(s: State, cs: seq<Choice>, read: seq<Choice>)
    requires s.acc == FeedAll(map[], Open(read))
    ensures FeedChoices(s, cs).acc == FeedAll(map[], Open(read + cs)) && FeedChoices(s, cs).end == s.end
  {
    if cs == [] {
      assert read + cs == read;
    } else {
      var front, last := cs[..|cs| - 1], cs[|cs| - 1];
      ChoicesStayOpen(s, front, read);
      assert (read + cs)[..|read + cs| - 1] == read + front;
      FeedAllConcat(map[], Open(read + front), last.calls);
    }
  }

  predicate OpenOk(s: State, read: seq<Choice>) {
    s.acc == if s.end == Some(Flushed) then map[] else FeedAll(map[], Open(read))
  }

  lemma StepStaysOpen(s: State, e: Event, read: seq<Choice>)
    requires OpenOk(s, read)
    ensures OpenOk(Step(s, e), read + if s.end.None? && e.Data? then e.choices else [])
  {
    assert read + [] == read;
    if s.end.None? && e.Data? {
      ChoicesStayOpen(if e.usage.Some? then s.(out := s.out + [UsageOut(e.usage.value)]) else s, e.choices, read);
    }
  }

  /** The calls still open when the input ends are those with fragments since the last finish reason, and
      none after `[DONE]`. */
  lemma {:induction false} OpenCalls(events: seq<Event>)
    ensures OpenOk(Run(events), Consumed(events))
    decreases |events|
  {
    if events != [] {
      OpenCalls(events[..|events| - 1]);
      StepStaysOpen(Run(events[..|events| - 1]), events[|events| - 1], Consumed(events[..|events| - 1]));
    }
  }

  /** The stream ends in an error: cancelled, unreadable or not a chunk. */
  predicate Fails(s: State) {
    s.end.Some? && !s.end.value.Flushed?
  }

  predicate AllSent(events: seq<Event>, i: int) {
    Emitted(Run(events).out, i) == Sent(Consumed(events), i)
  }

  /** No fragment of an index is lost if and only if the stream ended in `[DONE]` or there are no arguments
      for it since the last finish reason. They are lost without an error if and only if there are some and the
      input just ends. */
  lemma LostExactlyWhenOpen(events: seq<Event>, i: int)
    ensures AllSent(events, i) <==> Run(events).end == Some(Flushed) || ArgsOf(Open(Consumed(events)), i) == ""
    ensures !AllSent(events, i) && !Fails(Run(events)) <==>
            Run(events).end.None? && ArgsOf(Open(Consumed(events)), i) != ""
  {
    Conserves(events, i);
    OpenCalls(events);
    var ds := Open(Consumed(events));
    FeedAllMeans(map[], ds, i);
    assert "" + ArgsOf(ds, i) == ArgsOf(ds, i);
    assert Run(events).end != Some(Flushed) ==> Prior(Run(events).acc, i).args == ArgsOf(ds, i);
    Shorter(Emitted(Run(events).out, i), Prior(Run(events).acc, i).args);
  }

  lemma Shorter(a: string, b: string)
    ensures a == a + b <==> b == ""
  {
    assert b != "" ==> |a + b| > |a|;
    assert b == "" ==> a + b == a;
  }

  /** What goes wrong: a connection that closes early loses the call it was sending without an error. */
  lemma EarlyEndLosesCall()
    ensures var events := [Data(None, [Choice("", "", "", [Delta(Some(0), "call_1", "search", "q=weather")], None)])];
            Run(events).end == None && Run(events).out == [] && Sent(Consumed(events), 0) == "q=weather"
  {
    var c := Choice("", "", "", [Delta(Some(0), "call_1", "search", "q=weather")], None);
    assert c.calls[..0] == [] && [c][..0] == [];
    var events := [Data(None, [c])];
    assert events[..0] == [];
    assert FeedChoices(START, [c]) == FeedChoice(FeedChoices(START, []), c);
    assert Consumed(events) == [c];
    assert Sent([c], 0) == Sent([], 0) + ArgsOf(c.calls, 0);
  }

  // ----- fragments can be cut and moved -----

  /** Lists of fragments that accumulate to the same calls. */
  ghost predicate Interchangeable(ds: seq<Delta>, es: seq<Delta>) {
    forall acc :: FeedAll(acc, ds) == FeedAll(acc, es)
  }

  /** Any other interleaving of the fragments of different calls is interchangeable. */
  lemma InterleavingsInterchange(ds: seq<Delta>, es: seq<Delta>)
    requires SameCalls(ds, es)
    ensures Interchangeable(ds, es)
  {
    forall acc
      ensures FeedAll(acc, ds) == FeedAll(acc, es)
    {
      InterleavingIsIrrelevant(acc, ds, es);
    }
  }

  /** So are fragments whose arguments are cut in two. */
  lemma CutsInterchange(a: seq<Delta>, d: Delta, x: string, y: string, b: seq<Delta>)
    requires d.args == x + y
    ensures Interchangeable(a + [d] + b, a + [d.(args := x), Delta(d.index, "", "", y)] + b)
  {
    var cut := [d.(args := x), Delta(d.index, "", "", y)];
    forall acc
      ensures FeedAll(acc, a + [d] + b) == FeedAll(acc, a + cut + b)
    {
      FeedAllConcat(acc, a + [d], b);
      FeedAllConcat(acc, a + cut, b);
      FeedAllConcat(acc, a, [d]);
      FeedAllConcat(acc, a, cut);
      var m := FeedAll(acc, a);
      assert [d][..0] == [] && cut[..1] == [cut[0]] && [cut[0]][..0] == [];
      if d.index.Some? {
        var i := d.index.value;
        Regrouped(Prior(m, i).args, x, y);
        assert Feed(Feed(m, cut[0]), cut[1]) == Feed(m, d);
      }
    }
  }

  lemma {:induction false} FeedChoicesConcat(s: State, a: seq<Choice>, b: seq<Choice>)
    ensures FeedChoices(s, a + b) == FeedChoices(FeedChoices(s, a), b)
  {
    if b == [] {
      assert a + b == a;
    } else {
      FeedChoicesConcat(s, a, b[..|b| - 1]);
      assert (a + b)[..|a + b| - 1] == a + b[..|b| - 1];
    }
  }

  lemma {:induction false} StepsConcat(s: State, a: seq<Event>, b: seq<Event>)
    ensures Steps(s, a + b) == Steps(Steps(s, a), b)
  {
    if b == [] {
      assert a + b == a;
    } else {
      StepsConcat(s, a, b[..|b| - 1]);
      assert (a + b)[..|a + b| - 1] == a + b[..|b| - 1];
    }
  }

  lemma ReplacedInChunk(s: State, usage: Option<Usage>, l: seq<Choice>, c: Choice, ds: seq<Delta>, r: seq<Choice>)
    requires Interchangeable(c.calls, ds)
    ensures Step(s, Data(usage, l + [c] + r)) == Step(s, Data(usage, l + [c.(calls := ds)] + r))
  {
    var d := c.(calls := ds);
    var u := if usage.Some? then s.(out := s.out + [UsageOut(usage.value)]) else s;
    FeedChoicesConcat(u, l + [c], r);
    FeedChoicesConcat(u, l + [d], r);
    FeedChoicesConcat(u, l, [c]);
    FeedChoicesConcat(u, l, [d]);
    assert [c][..0] == [] && [d][..0] == [];
    assert FeedAll(FeedChoices(u, l).acc, c.calls) == FeedAll(FeedChoices(u, l).acc, ds);
  }

  /** Interchangeable fragments anywhere in a stream make no difference to anything that is sent. */
  lemma CutsAreInvisible(before: seq<Event>, usage: Option<Usage>, l: seq<Choice>, c: Choice, ds: seq<Delta>,
      r: seq<Choice>, after: seq<Event>)
    requires Interchangeable(c.calls, ds)
    ensures Run(before + [Data(usage, l + [c] + r)] + after)
        == Run(before + [Data(usage, l + [c.(calls := ds)] + r)] + after)
  {
    var e, f := Data(usage, l + [c] + r), Data(usage, l + [c.(calls := ds)] + r);
    StepsConcat(START, before + [e], after);
    StepsConcat(START, before + [f], after);
    StepsConcat(START, before, [e]);
    StepsConcat(START, before, [f]);
    assert [e][..0] == [] && [f][..0] == [];
    ReplacedInChunk(Run(before), usage, l, c, ds, r);
  }

  /** Nor does it if the fragments of one chunk arrive in two. */
  lemma ChunksCanBeSplit(before: seq<Event>, usage: Option<Usage>, c: Choice, a: seq<Delta>, b: seq<Delta>,
      after: seq<Event>)
    requires c.calls == a + b
    ensures Run(before + [Data(usage, [c])] + after) ==
            Run(before + [Data(usage, [Choice("", "", "", a, None)]), Data(None, [c.(calls := b)])] + after)
  {
    var first, second := Choice("", "", "", a, None), c.(calls := b);
    var es := [Data(usage, [first]), Data(None, [second])];
    StepsConcat(START, before + [Data(usage, [c])], after);
    StepsConcat(START, before + es, after);
    StepsConcat(START, before, [Data(usage, [c])]);
    StepsConcat(START, before, es);
    assert [Data(usage, [c])][..0] == [] && es[..1] == [Data(usage, [first])] && [Data(usage, [first])][..0] == [];
    var s := Run(before);
    assert Steps(s, [Data(usage, [c])]) == Step(s, Data(usage, [c])) && Steps(s, es) == Step(Step(s, es[0]), es[1]);
    if s.end.None? {
      var u := if usage.Some? then s.(out := s.out + [UsageOut(usage.value)]) else s;
      OneChoice(u, c);
      OneChoice(u, first);
      OneChoice(FeedChoice(u, first), second);
      SplitChoice(u, c, a, b);
    }
  }

  lemma SplitChoice(s: State, c: Choice, a: seq<Delta>, b: seq<Delta>)
    requires c.calls == a + b
    ensures FeedChoice(FeedChoice(s, Choice("", "", "", a, None)), c.(calls := b)) == FeedChoice(s, c)
  {
    FeedAllConcat(s.acc, a, b);
    assert s.out + Message(Choice("", "", "", a, None), []) == s.out;
  }

  lemma OneChoice(s: State, c: Choice)
    ensures FeedChoices(s, [c]) == FeedChoice(s, c)
  {
    assert [c][..0] == [];
  }
}
