/** The two goroutines of a bridged run over one pipe, for every schedule. The proxy's events are given
    as scripts, the actions each event makes it perform. */
module BridgeMachine {
  import opened Wrappers
  import opened Messages

  /** An entry of the pipe: a message, possibly nil, or an error. */
  datatype Item = Chunk(message: Message) | Fault

  /** The proxy's visible actions: storing the shared flag and sending. */
  datatype Action = SetIncomplete | Send(item: Item)

  /** Chunks that count towards the persisted answer. */
  predicate Eligible(m: Message) {
    m.Msg? && !IsEphemeral(m) && m.toolCalls == []
  }

  /** The eligible chunks before the first fault. */
  function Answer(items: seq<Item>): seq<Message> {
    if items == [] || items[0].Fault? then []
    else (if Eligible(items[0].message) then [items[0].message] else []) + Answer(items[1..])
  }

  function JoinContents(msgs: seq<Message>): string {
    if msgs == [] then ""
    else
      var last := msgs[|msgs| - 1];
      JoinContents(msgs[..|msgs| - 1]) + (if last.Msg? then last.content else "")
  }

  /** A possible result of `ConcatMessages`: all the text, and no mark that no chunk carried. */
  predicate Concatenates(m: Message, msgs: seq<Message>) {
    && m.Msg? && m.content == JoinContents(msgs)
    && (IsIncomplete(m) ==> exists c :: c in msgs && IsIncomplete(c))
  }

  datatype Outcome = Commit(answer: Message) | Discard(concatFailed: bool)

  /** Where persist stands. The concatenated answer is kept while the flag is still to be loaded. */
  datatype Persist =
    | Reading(fullMsgs: seq<Message>)
    | Stopped(fullMsgs: seq<Message>)
    | Joined(answer: Message)
    | Decided(outcome: Outcome)

  /** `events` holds the scripts of the events still in the iterator, `todo` the rest of the script being
      performed; `consumed` records what persist has received, `pipe` what was sent and it has not. The caller
      has not read the last `lag` items sent; `callerOpen` until it closes its copy or is at its end. */
  datatype State = State(
    events: seq<seq<Action>>,
    todo: seq<Action>,
    pipe: seq<Item>,
    closed: bool,
    incomplete: bool,
    consumed: seq<Item>,
    persist: Persist,
    capacity: nat,
    lag: nat,
    callerOpen: bool)

  function Start(scripts: seq<seq<Action>>, capacity: nat): State {
    State(scripts, [], [], false, false, [], Reading([]), capacity, 0, true)
  }

  /** The entries in the pipe: an entry leaves it with the first of the two copies that reads it. */
  function Buffered(s: State): nat {
    if s.lag < |s.pipe| then s.lag else |s.pipe|
  }

  /** Both copies are closed; persist closes its own once it has decided. What is sent then is dropped. */
  predicate Unread(s: State) {
    s.persist.Decided? && !s.callerOpen
  }

  predicate CanSend(s: State) {
    Buffered(s) < s.capacity || Unread(s)
  }

  /** One atomic step of either goroutine, or of the caller, which reads its copy or closes it. `Join` carries
      what `ConcatMessages` returned. */
  datatype Step =
    | NextEvent
    | ProxyAct
    | CloseWriter
    | Receive
    | ReceiveEOF
    | Join(result: Option<Message>)
    | LoadFlag
    | CallerRead
    | CallerClose

  predicate ByCaller(step: Step) {
    step.CallerRead? || step.CallerClose?
  }

  predicate Enabled(s: State, step: Step) {
    match step
    case NextEvent => s.todo == [] && s.events != [] && !s.closed
    case ProxyAct => s.todo != [] && (s.todo[0].Send? ==> CanSend(s))
    case CloseWriter => s.todo == [] && s.events == [] && !s.closed
    case Receive => s.persist.Reading? && s.pipe != []
    case ReceiveEOF => s.persist.Reading? && s.pipe == [] && s.closed
    case Join(result) =>
      s.persist.Stopped? &&
      (result.Some? ==> Concatenates(result.value, s.persist.fullMsgs))
    case LoadFlag => s.persist.Joined?
    case CallerRead => s.callerOpen && (s.lag > 0 || s.closed)
    case CallerClose => s.callerOpen
  }

  function Apply(s: State, step: Step): State
    requires Enabled(s, step)
  {
    match step
    case NextEvent => s.(todo := s.events[0], events := s.events[1..])
    case ProxyAct =>
      var rest := s.(todo := s.todo[1..]);
      (match s.todo[0]
       case SetIncomplete => rest.(incomplete := true)
       case Send(item) => rest.(pipe := s.pipe + [item], lag := s.lag + 1))
    case CloseWriter => s.(closed := true)
    case Receive =>
      var item := s.pipe[0];
      var rest := s.(pipe := s.pipe[1..], consumed := s.consumed + [item]);
      if item.Fault? then rest.(incomplete := true, persist := Stopped(s.persist.fullMsgs))
      else if item.message.Nil? || IsEphemeral(item.message) || |item.message.toolCalls| > 0 then rest
      else rest.(persist := Reading(s.persist.fullMsgs + [item.message]))
    case ReceiveEOF => s.(persist := Stopped(s.persist.fullMsgs))
    case Join(result) =>
      if s.persist.fullMsgs == [] then s.(persist := Decided(Discard(false)))
      else if result.None? then s.(persist := Decided(Discard(true)))
      else s.(persist := Joined(result.value))
    case LoadFlag =>
      var answer := s.persist.answer;
      s.(persist := Decided(Commit(if s.incomplete then SetBoolMarker(answer, INCOMPLETE_KEY) else answer)))
    case CallerRead => if s.lag > 0 then s.(lag := s.lag - 1) else s.(callerOpen := false)
    case CallerClose => s.(callerOpen := false)
  }

  /** The items among some actions. */
  function Sends(acts: seq<Action>): seq<Item> {
    if acts == [] then []
    else (if acts[0].Send? then [acts[0].item] else []) + Sends(acts[1..])
  }

  /** Everything some scripts put on the pipe. */
  function Items(scripts: seq<seq<Action>>): seq<Item> {
    if scripts == [] then [] else Sends(scripts[0]) + Items(scripts[1..])
  }

  /** What is still to be sent. */
  function Pending(s: State): seq<Item> {
    Sends(s.todo) + Items(s.events)
  }

  /** Every item is consumed, in the pipe, or still to be sent, in this order. */
  predicate Flow(s: State, all: seq<Item>) {
    s.consumed + s.pipe + Pending(s) == all
  }

  /** Actions in which every fault is announced first, and every flag store announces a fault. `raised` says
      whether the flag is set already. */
  predicate FlagFirst(acts: seq<Action>, raised: bool) {
    acts == [] ||
    (match acts[0]
     case SetIncomplete => Fault in Sends(acts[1..]) && FlagFirst(acts[1..], true)
     case Send(item) => (item.Fault? ==> raised) && FlagFirst(acts[1..], raised))
  }

  predicate WellScripted(scripts: seq<seq<Action>>) {
    forall i :: 0 <= i < |scripts| ==> FlagFirst(scripts[i], false)
  }

  predicate FlagOk(s: State, all: seq<Item>) {
    && (s.incomplete ==> Fault in all)
    && (Fault in s.consumed || Fault in s.pipe ==> s.incomplete)
    && FlagFirst(s.todo, s.incomplete) && WellScripted(s.events)
    && (s.closed ==> s.todo == [] && s.events == [])
  }

  predicate PersistOk(s: State, all: seq<Item>) {
    match s.persist
    case Reading(fullMsgs) => fullMsgs == Answer(s.consumed) && Fault !in s.consumed
    case Stopped(fullMsgs) => Settled(s, all) && fullMsgs == Answer(all)
    case Joined(answer) => Settled(s, all) && Answer(all) != [] && Concatenates(answer, Answer(all))
    case Decided(outcome) => OutcomeOk(all, outcome)
  }

  /** When persist stops reading, the flag tells whether the run failed, and keeps telling it. */
  predicate Settled(s: State, all: seq<Item>) {
    s.incomplete <==> Fault in all
  }

  /** The pipe is never fuller than its capacity while somebody may read it. */
  predicate PipeOk(s: State) {
    s.capacity >= 1 && (Buffered(s) <= s.capacity || Unread(s))
  }

  predicate Inv(s: State, all: seq<Item>) {
    Flow(s, all) && FlagOk(s, all) && PersistOk(s, all) && PipeOk(s)
  }

  /** What the bridge owes the turn, given everything the proxy sends. The answer is the eligible text
      before the first fault; it carries the incomplete mark when there is a fault, and otherwise only if
      a chunk brought the mark along. The turn is discarded exactly when there is no eligible text or the
      chunks do not concatenate. */
  predicate OutcomeOk(all: seq<Item>, outcome: Outcome) {
    var msgs := Answer(all);
    match outcome
    case Commit(answer) =>
      && msgs != []
      && answer.Msg? && answer.content == JoinContents(msgs)
      && (Fault in all ==> IsIncomplete(answer))
      && (IsIncomplete(answer) ==> Fault in all || exists m :: m in msgs && IsIncomplete(m))
    case Discard(concatFailed) => concatFailed <==> msgs != []
  }

  lemma {:induction false} FlagFirstStays(acts: seq<Action>)
    requires FlagFirst(acts, false)
    ensures FlagFirst(acts, true)
  {
    if acts != [] && acts[0].Send? {
      FlagFirstStays(acts[1..]);
    }
  }

  lemma {:induction false} AnswerSplit(a: seq<Item>, b: seq<Item>)
    requires forall i :: 0 <= i < |a| ==> a[i].Chunk?
    ensures Answer(a + b) == Answer(a) + Answer(b)
  {
    if a == [] {
      assert a + b == b;
    } else {
      AnswerSplit(a[1..], b);
      assert (a + b)[1..] == a[1..] + b;
      var head := if Eligible(a[0].message) then [a[0].message] else [];
      assert head + (Answer(a[1..]) + Answer(b)) == head + Answer(a[1..]) + Answer(b);
    }
  }

  lemma StartInv(scripts: seq<seq<Action>>, capacity: nat)
    requires WellScripted(scripts) && capacity >= 1
    ensures Inv(Start(scripts, capacity), Items(scripts))
  {
  }

  lemma HeadMovesLeft<T>(a: seq<T>, b: seq<T>)
    requires b != []
    ensures a + [b[0]] + b[1..] == a + b
    ensures a + ([b[0]] + b[1..]) == a + b
  {
  }

  lemma StepFlow(s: State, step: Step, t: State, all: seq<Item>)
    requires Flow(s, all) && Enabled(s, step) && t == Apply(s, step)
    ensures Flow(t, all)
  {
    match step
    case ProxyAct =>
      ProxyActFlow(s, t, all);
    case Receive =>
      HeadMovesLeft(s.consumed, s.pipe);
    case _ =>
      assert Pending(t) == Pending(s);
  }

  lemma ProxyActFlow(s: State, t: State, all: seq<Item>)
    requires Flow(s, all) && Enabled(s, ProxyAct) && t == Apply(s, ProxyAct)
    ensures Flow(t, all)
  {
    if s.todo[0].Send? {
      assert Pending(s) == [s.todo[0].item] + Pending(t);
    } else {
      assert Pending(s) == Pending(t);
    }
  }

  lemma NextEventFlag(s: State, t: State, all: seq<Item>)
    requires FlagOk(s, all) && Enabled(s, NextEvent) && t == Apply(s, NextEvent)
    ensures FlagOk(t, all)
  {
    assert s.events[0] == t.todo;
    if s.incomplete {
      FlagFirstStays(t.todo);
    }
  }

  lemma ReceiveFlag(s: State, t: State, all: seq<Item>)
    requires FlagOk(s, all) && Enabled(s, Receive) && t == Apply(s, Receive)
    ensures FlagOk(t, all)
  {
    assert s.pipe[0] in s.pipe;
    if Fault in t.pipe {
      assert Fault in s.pipe;
    }
  }

  lemma ProxyActFlag(s: State, t: State, all: seq<Item>)
    requires Flow(s, all) && FlagOk(s, all) && Enabled(s, ProxyAct) && t == Apply(s, ProxyAct)
    ensures FlagOk(t, all)
  {
  }

  lemma StepFlag(s: State, step: Step, t: State, all: seq<Item>)
    requires Flow(s, all) && FlagOk(s, all) && Enabled(s, step) && t == Apply(s, step)
    ensures FlagOk(t, all)
  {
    match step
    case NextEvent => NextEventFlag(s, t, all);
    case ProxyAct => ProxyActFlag(s, t, all);
    case Receive => ReceiveFlag(s, t, all);
    case _ =>
  }

  /** Stopping at a fault: nothing after it counts. */
  lemma StopsAtFault(before: seq<Item>, after: seq<Item>)
    requires Fault !in before && after != [] && after[0].Fault?
    ensures Answer(before + after) == Answer(before)
  {
    forall i | 0 <= i < |before|
      ensures before[i].Chunk?
    {
      assert before[i] in before;
    }
    AnswerSplit(before, after);
  }

  lemma ReceivePersist(s: State, t: State, all: seq<Item>)
    requires Flow(s, all) && FlagOk(s, all) && PersistOk(s, all) && Enabled(s, Receive) && t == Apply(s, Receive)
    ensures PersistOk(t, all)
  {
    var item := s.pipe[0];
    if item.Fault? {
      StopsAtFault(s.consumed, s.pipe + Pending(s));
      assert s.consumed + (s.pipe + Pending(s)) == s.consumed + s.pipe + Pending(s);
    } else {
      OneMore(s.consumed, item);
    }
  }

  lemma OneMore(consumed: seq<Item>, item: Item)
    requires Fault !in consumed && item.Chunk?
    ensures Fault !in consumed + [item]
    ensures Answer(consumed + [item]) == Answer(consumed) + if Eligible(item.message) then [item.message] else []
  {
    forall i | 0 <= i < |consumed|
      ensures consumed[i].Chunk?
    {
      assert consumed[i] in consumed;
    }
    AnswerSplit(consumed, [item]);
    assert [item][1..] == [];
  }

  lemma StepPersist(s: State, step: Step, t: State, all: seq<Item>)
    requires Flow(s, all) && FlagOk(s, all) && PersistOk(s, all) && FlagOk(t, all) && Enabled(s, step)
        && t == Apply(s, step)
    ensures PersistOk(t, all)
  {
    match step
    case Receive =>
      ReceivePersist(s, t, all);
    case ReceiveEOF =>
      assert s.consumed == all;
    case LoadFlag =>
      assert s.persist.Joined?;
    case _ =>
  }

  lemma StepInv(s: State, step: Step, t: State, all: seq<Item>)
    requires Inv(s, all) && Enabled(s, step) && t == Apply(s, step)
    ensures Inv(t, all)
  {
    StepFlow(s, step, t, all);
    StepFlag(s, step, t, all);
    StepPersist(s, step, t, all);
    StepPipe(s, step, t);
  }

  lemma StepPipe(s: State, step: Step, t: State)
    requires PipeOk(s) && Enabled(s, step) && t == Apply(s, step)
    ensures PipeOk(t)
  {
  }

  /** A schedule: each step enabled where it is taken. */
  predicate Runs(s: State, steps: seq<Step>)
    decreases |steps|
  {
    steps == [] || (Enabled(s, steps[0]) && Runs(Apply(s, steps[0]), steps[1..]))
  }

  function Final(s: State, steps: seq<Step>): State
    requires Runs(s, steps)
    decreases |steps|
  {
    if steps == [] then s else Final(Apply(s, steps[0]), steps[1..])
  }

  lemma {:induction false} RunInv(s: State, steps: seq<Step>, t: State, all: seq<Item>)
    requires Inv(s, all) && Runs(s, steps) && t == Final(s, steps)
    ensures Inv(t, all)
    decreases |steps|
  {
    if steps != [] {
      var u := Apply(s, steps[0]);
      StepInv(s, steps[0], u, all);
      RunInv(u, steps[1..], t, all);
    }
  }

  /** Both goroutines have returned. */
  predicate Terminated(s: State) {
    s.persist.Decided? && s.closed
  }

  /** An upper bound on the steps still to come. */
  function Remaining(s: State): nat {
    3 * Work(s.events) + 3 * |s.todo| + |s.pipe| + s.lag + (if s.closed then 0 else 1) + (if s.callerOpen then 1 else 0)
    + match s.persist case Reading(_) => 3 case Stopped(_) => 2 case Joined(_) => 1 case Decided(_) => 0
  }

  function Work(events: seq<seq<Action>>): nat {
    if events == [] then 0 else 1 + |events[0]| + Work(events[1..])
  }

  lemma StepDecreases(s: State, step: Step, t: State)
    requires Enabled(s, step) && t == Apply(s, step)
    ensures Remaining(t) < Remaining(s)
    ensures s.persist.Decided? ==> t.persist == s.persist
  {
    if step.Receive? {
      ReceiveDecreases(s, t);
    }
  }

  lemma ReceiveDecreases(s: State, t: State)
    requires Enabled(s, Receive) && t == Apply(s, Receive)
    ensures Remaining(t) < Remaining(s)
  {
  }

  /** The proxy waits for room in the pipe, and the caller neither reads nor closes its copy. */
  predicate Blocked(s: State) {
    s.todo != [] && s.todo[0].Send? && Buffered(s) >= s.capacity && s.callerOpen
  }

  /** Without the caller, one of the goroutines can move until the turn is decided and the proxy is done or
      waits for the caller; a caller that is waited for can read. */
  lemma Progress(s: State, all: seq<Item>)
    requires Inv(s, all)
    ensures (forall step :: Enabled(s, step) ==> ByCaller(step)) <==> s.persist.Decided? && (s.closed || Blocked(s))
    ensures Blocked(s) ==> !s.closed && Enabled(s, CallerRead) && s.lag > 0
  {
    if s.persist.Decided? {
      DecidedProgress(s, all);
    } else if s.persist.Stopped? {
      assert Enabled(s, Join(None));
    } else if s.persist.Joined? {
      assert Enabled(s, LoadFlag);
    } else if s.pipe != [] {
      assert Enabled(s, Receive);
    } else if s.todo != [] {
      assert Enabled(s, ProxyAct);
    } else {
      assert Enabled(s, if s.closed then ReceiveEOF else if s.events != [] then NextEvent else CloseWriter);
    }
  }

  lemma DecidedProgress(s: State, all: seq<Item>)
    requires Inv(s, all) && s.persist.Decided?
    ensures (forall step :: Enabled(s, step) ==> ByCaller(step)) <==> s.closed || Blocked(s)
  {
    if !s.closed && !Blocked(s) {
      assert Enabled(s, if s.todo != [] then ProxyAct else if s.events != [] then NextEvent else CloseWriter);
    }
  }

  lemma {:induction false} RunBounded(s: State, steps: seq<Step>)
    requires Runs(s, steps)
    ensures |steps| + Remaining(Final(s, steps)) <= Remaining(s)
    ensures s.persist.Decided? ==> Final(s, steps).persist == s.persist
    decreases |steps|
  {
    if steps != [] {
      StepDecreases(s, steps[0], Apply(s, steps[0]));
      RunBounded(Apply(s, steps[0]), steps[1..]);
    }
  }

  /** What holds after some steps of a run whose items are `all`. Without the caller a run only stops with the
      turn decided, and then with both goroutines done unless the proxy waits for the caller; with it, only
      with both done. A decision is the outcome the turn is owed. */
  ghost predicate Resolved(s: State, all: seq<Item>) {
    && ((forall step :: Enabled(s, step) ==> ByCaller(step)) ==> s.persist.Decided? && (Terminated(s) <==> !Blocked(s)))
    && ((forall step :: !Enabled(s, step)) ==> Terminated(s))
    && (s.persist.Decided? ==> OutcomeOk(all, s.persist.outcome))
  }

  lemma InvResolves(s: State, all: seq<Item>)
    requires Inv(s, all)
    ensures Resolved(s, all)
  {
    Progress(s, all);
  }

  /** Every schedule: it is finite, the turn is decided whatever the caller does, both goroutines are done when
      nobody can move, the decision is taken once and never changed, and it is the outcome the turn is owed. */
  lemma DecidesOnce(scripts: seq<seq<Action>>, capacity: nat, steps: seq<Step>, more: seq<Step>)
    requires WellScripted(scripts) && capacity >= 1
    requires Runs(Start(scripts, capacity), steps) && Runs(Final(Start(scripts, capacity), steps), more)
    ensures var s := Final(Start(scripts, capacity), steps);
            && |steps| <= Remaining(Start(scripts, capacity))
            && Resolved(s, Items(scripts))
            && (s.persist.Decided? ==> Final(s, more).persist == s.persist)
  {
    var start := Start(scripts, capacity);
    StartInv(scripts, capacity);
    var s := Final(start, steps);
    RunInv(start, steps, s, Items(scripts));
    RunBounded(start, steps);
    RunBounded(s, more);
    InvResolves(s, Items(scripts));
  }

  // ----- a caller that neither reads nor closes -----

  lemma Prepend(s: State, step: Step, rest: seq<Step>)
    requires Enabled(s, step) && Runs(Apply(s, step), rest)
    ensures Runs(s, [step] + rest) && Final(s, [step] + rest) == Final(Apply(s, step), rest)
  {
    assert ([step] + rest)[1..] == rest;
  }

  /** After an error persist reads no more, so two chunks are too many for a pipe of one entry. */
  lemma CallerCanBlock(chunk: Message) returns (steps: seq<Step>)
    ensures var start := Start([[SetIncomplete, Send(Fault)], [Send(Chunk(chunk)), Send(Chunk(chunk))]], 1);
            Runs(start, steps) && Blocked(Final(start, steps)) && Final(start, steps).persist.Decided?
  {
    var script := [Send(Chunk(chunk)), Send(Chunk(chunk))];
    var s := Start([[SetIncomplete, Send(Fault)], script], 1);
    var t := State([script], [], [Fault], false, true, [], Reading([]), 1, 1, true);
    var u := State([script], [], [], false, true, [Fault], Decided(Discard(false)), 1, 1, true);
    var rest := SecondBlocks(u, chunk);
    var stopped := t.(pipe := [], consumed := [Fault], persist := Stopped([]));
    assert Apply(t, Receive) == stopped && Apply(stopped, Join(None)) == u;
    Prepend(stopped, Join(None), rest);
    Prepend(t, Receive, [Join(None)] + rest);
    var more := [Receive] + ([Join(None)] + rest);
    Prepend(Apply(Apply(s, NextEvent), ProxyAct), ProxyAct, more);
    Prepend(Apply(s, NextEvent), ProxyAct, [ProxyAct] + more);
    Prepend(s, NextEvent, [ProxyAct] + ([ProxyAct] + more));
    steps := [NextEvent] + ([ProxyAct] + ([ProxyAct] + more));
  }

  lemma SecondBlocks(u: State, chunk: Message) returns (steps: seq<Step>)
    requires u.events == [[Send(Chunk(chunk)), Send(Chunk(chunk))]] && u.todo == [] && u.pipe == [] && !u.closed
    requires u.persist.Decided? && u.capacity == 1 && u.lag == 1 && u.callerOpen
    ensures Runs(u, steps) && Blocked(Final(u, steps)) && Final(u, steps).persist.Decided?
  {
    var v := Apply(u, NextEvent);
    var w := Apply(v, ProxyAct);
    assert w.todo == [Send(Chunk(chunk))] && w.pipe == [Chunk(chunk)] && w.lag == 2;
    Prepend(v, ProxyAct, []);
    Prepend(u, NextEvent, [ProxyAct] + []);
    steps := [NextEvent] + ([ProxyAct] + []);
  }
}
