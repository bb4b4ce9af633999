/** The whole session protocol: any number of turns, condensations and deletions on any conversations,
    under the locks of `Locks`, each turn handed to a bridge of `Bridge` and finished by it. */
module Session {
  import opened Wrappers
  import opened Messages
  import Guarded
  import Locks
  import Bridge
  import Machine = BridgeMachine

  /** A persisted message, with the operation that wrote it and, for an answer, the run it came from. */
  datatype Entry =
    | Summary(text: string)
    | UserEntry(op: Locks.OpId, message: Message)
    | AnswerEntry(op: Locks.OpId, events: seq<Bridge.AgentEvent>, message: Message)

  /** An open turn: its pending user message, the log it found, and what it has appended since. */
  datatype Turn = Turn(user: Message, base: seq<Entry>, mine: seq<Entry>)

  /** What an operation does while it holds the lock. */
  datatype Work =
    | Loading(user: Message)
    | Open(turn: Turn)
    | Condensing(turn: Turn, seen: seq<Entry>)
    | Running(turn: Turn, events: seq<Bridge.AgentEvent>, bridge: Machine.State)
    | Committing(turn: Turn, events: seq<Bridge.AgentEvent>, answer: Message)
    | Answering(turn: Turn, events: seq<Bridge.AgentEvent>, answer: Message)
    | Deleting
    | Closing(base: seq<Entry>, mine: seq<Entry>)

  /** The atomic steps inside the lock. `Summarize(None)` is a condensation that does nothing or fails,
      `Abandon` a caller that discards instead of running; store calls may fail. */
  datatype WorkStep =
    | Load(ok: bool)
    | ReadWindow
    | Summarize(text: Option<string>)
    | HandOver(events: seq<Bridge.AgentEvent>, bufferSize: int)
    | InBridge(step: Machine.Step)
    | Finish
    | AppendUser
    | AppendAnswer
    | Abandon
    | Delete(ok: bool)

  predicate WorkEnabled(w: Work, step: WorkStep) {
    match step
    case Load(_) => w.Loading?
    case ReadWindow => w.Open?
    case Summarize(text) => w.Condensing? && (text.Some? ==> w.seen != [])
    case HandOver(_, _) => w.Open?
    case InBridge(b) => w.Running? && Machine.Enabled(w.bridge, b)
    case Finish => w.Running? && w.bridge.persist.Decided?
    case AppendUser => w.Committing?
    case AppendAnswer => w.Answering?
    case Abandon => w.Open?
    case Delete(_) => w.Deleting?
  }

  /** The operation's next state and the conversation's next log. A deleted conversation has an empty log. */
  function WorkApply(op: Locks.OpId, w: Work, log: seq<Entry>, step: WorkStep): (Work, seq<Entry>)
    requires WorkEnabled(w, step)
  {
    match step
    case Load(ok) => (if ok then Open(Turn(w.user, log, [])) else Closing(log, []), log)
    case ReadWindow => (Condensing(w.turn, log), log)
    case Summarize(text) =>
      if text.None? then (Open(w.turn), log)
      else (Open(w.turn.(mine := w.turn.mine + [Summary(text.value)])), log + [Summary(text.value)])
    case HandOver(events, bufferSize) => (Running(w.turn, events, Bridge.Launch(events, bufferSize)), log)
    case InBridge(b) => (w.(bridge := Machine.Apply(w.bridge, b)), log)
    case Finish =>
      var outcome := w.bridge.persist.outcome;
      (if outcome.Commit? then Committing(w.turn, w.events, outcome.answer) else Closing(w.turn.base, w.turn.mine), log)
    case AppendUser => (Answering(w.turn, w.events, w.answer), log + [UserEntry(op, w.turn.user)])
    case AppendAnswer =>
      (Closing(w.turn.base, w.turn.mine + [UserEntry(op, w.turn.user), AnswerEntry(op, w.events, w.answer)]),
       log + [AnswerEntry(op, w.events, w.answer)])
    case Abandon => (Closing(w.turn.base, w.turn.mine), log)
    case Delete(ok) => if ok then (Closing([], []), []) else (Closing(log, []), log)
  }

  // ----- what a log may look like -----

  function RunItems(events: seq<Bridge.AgentEvent>): seq<Machine.Item> {
    Machine.Items(Bridge.Scripts(events))
  }

  /** Summaries, and user messages each directly followed by the answer of the same turn, which is the
      outcome its run is owed. */
  predicate WellFormed(log: seq<Entry>) {
    var n := |log|;
    n == 0 ||
    (match log[n - 1]
     case Summary(_) => WellFormed(log[..n - 1])
     case UserEntry(_, _) => false
     case AnswerEntry(op, events, answer) =>
       && n >= 2 && log[n - 2].UserEntry? && log[n - 2].op == op && log[n - 2].message.Msg?
       && Machine.OutcomeOk(RunItems(events), Machine.Commit(answer))
       && WellFormed(log[..n - 2]))
  }

  predicate AllSummaries(mine: seq<Entry>) {
    forall i :: 0 <= i < |mine| ==> mine[i].Summary?
  }

  /** What a finished operation may have appended: summaries, then at most its own pair. */
  predicate OwnEntries(op: Locks.OpId, mine: seq<Entry>) {
    || AllSummaries(mine)
    || (|mine| >= 2 && AllSummaries(mine[..|mine| - 2])
        && mine[|mine| - 2].UserEntry? && mine[|mine| - 2].op == op
        && mine[|mine| - 1].AnswerEntry? && mine[|mine| - 1].op == op)
  }

  predicate TurnOk(t: Turn, log: seq<Entry>) {
    t.user.Msg? && log == t.base + t.mine && AllSummaries(t.mine) && WellFormed(log)
  }

  /** The log of an operation's conversation, seen from inside: nobody else has written to it since it was
      loaded, and only a turn between its two appends leaves a user message without an answer. */
  predicate WorkOk(op: Locks.OpId, w: Work, log: seq<Entry>) {
    match w
    case Loading(user) => user.Msg? && WellFormed(log)
    case Open(t) => TurnOk(t, log)
    case Condensing(t, seen) => TurnOk(t, log) && seen == log
    case Running(t, events, b) => TurnOk(t, log) && Machine.Inv(b, RunItems(events))
    case Committing(t, events, answer) => TurnOk(t, log) && Machine.OutcomeOk(RunItems(events), Machine.Commit(answer))
    case Answering(t, events, answer) =>
      && t.user.Msg? && log == t.base + t.mine + [UserEntry(op, t.user)] && AllSummaries(t.mine)
      && WellFormed(t.base + t.mine) && Machine.OutcomeOk(RunItems(events), Machine.Commit(answer))
    case Deleting => WellFormed(log)
    case Closing(base, mine) => log == base + mine && OwnEntries(op, mine) && WellFormed(log)
  }

  lemma SummaryAppends(log: seq<Entry>, text: string)
    requires WellFormed(log)
    ensures WellFormed(log + [Summary(text)])
  {
    assert (log + [Summary(text)])[..|log|] == log;
  }

  lemma PairAppends(log: seq<Entry>, op: Locks.OpId, user: Message, events: seq<Bridge.AgentEvent>, answer: Message)
    requires WellFormed(log) && user.Msg? && Machine.OutcomeOk(RunItems(events), Machine.Commit(answer))
    ensures WellFormed(log + [UserEntry(op, user), AnswerEntry(op, events, answer)])
  {
    var pair := log + [UserEntry(op, user), AnswerEntry(op, events, answer)];
    assert pair[..|pair| - 2] == log && pair[|pair| - 2] == UserEntry(op, user);
  }

  lemma StartBridge(events: seq<Bridge.AgentEvent>, bufferSize: int)
    ensures Machine.Inv(Bridge.Launch(events, bufferSize), RunItems(events))
  {
    forall e: Bridge.AgentEvent
      ensures Machine.FlagFirst(Bridge.ActionsOf(e), false)
    {
      Bridge.EventFault(e);
    }
    Machine.StartInv(Bridge.Scripts(events), Bridge.Capacity(bufferSize));
  }

  lemma SummarizeOk(t: Turn, log: seq<Entry>, text: string)
    requires TurnOk(t, log)
    ensures TurnOk(t.(mine := t.mine + [Summary(text)]), log + [Summary(text)])
  {
    SummaryAppends(log, text);
    assert log + [Summary(text)] == t.base + (t.mine + [Summary(text)]);
  }

  lemma TwoAppends<T>(a: seq<T>, b: seq<T>, x: T, y: T)
    ensures a + b + [x] + [y] == a + (b + [x, y]) == (a + b) + [x, y]
    ensures (b + [x, y])[..|b + [x, y]| - 2] == b
  {
  }

  lemma AppendAnswerOk(op: Locks.OpId, t: Turn, events: seq<Bridge.AgentEvent>, answer: Message, log: seq<Entry>)
    requires t.user.Msg? && AllSummaries(t.mine) && WellFormed(t.base + t.mine)
        && log == t.base + t.mine + [UserEntry(op, t.user)]
    requires Machine.OutcomeOk(RunItems(events), Machine.Commit(answer))
    ensures var u, a := UserEntry(op, t.user), AnswerEntry(op, events, answer);
            log + [a] == t.base + (t.mine + [u, a]) && OwnEntries(op, t.mine + [u, a]) && WellFormed(log + [a])
  {
    var u, a := UserEntry(op, t.user), AnswerEntry(op, events, answer);
    TwoAppends(t.base, t.mine, u, a);
    PairAppends(t.base + t.mine, op, t.user, events, answer);
  }

  lemma WorkStepOk(op: Locks.OpId, w: Work, log: seq<Entry>, step: WorkStep, w': Work, log': seq<Entry>)
    requires WorkOk(op, w, log) && WorkEnabled(w, step) && (w', log') == WorkApply(op, w, log, step)
    ensures WorkOk(op, w', log')
  {
    match step
    case Load(_) => assert log == log + [];
    case Summarize(Some(text)) => SummarizeOk(w.turn, log, text);
    case HandOver(events, bufferSize) => StartBridge(events, bufferSize);
    case InBridge(b) => Machine.StepInv(w.bridge, b, w'.bridge, RunItems(w.events));
    case AppendAnswer => AppendAnswerOk(op, w.turn, w.events, w.answer, log);
    case Delete(_) => assert log' == log' + [];
    case _ =>
  }

  // ----- all operations together -----

  type State = Guarded.State<Work, Entry>

  datatype Step =
    | Core(step: Locks.Step<Work>)
    | Inside(op: Locks.OpId, work: WorkStep)

  /** Work before it begins. */
  predicate Ready(w: Work) {
    (w.Loading? && w.user.Msg?) || w.Deleting?
  }

  /** `BeginTurn` and `DeleteConversation` start an operation; it unlocks when its work is closing. */
  predicate Enabled(s: State, step: Step) {
    match step
    case Core(c) =>
      && Locks.Enabled(s.core, c) && !c.Progress?
      && (c.Enter? ==> Ready(c.work))
      && (c.Lookup? ==> s.core.ops[c.op].work.Closing?)
    case Inside(op, work) => op in s.core.ops && s.core.ops[op].Held? && WorkEnabled(s.core.ops[op].work, work)
  }

  function Apply(s: State, step: Step): State
    requires Enabled(s, step)
  {
    match step
    case Core(c) => Guarded.Moved(s, c)
    case Inside(op, work) =>
      var p := s.core.ops[op];
      var (w, log) := WorkApply(op, p.work, Guarded.LogOf(s, p.key), work);
      Guarded.Worked(s, op, w, log)
  }

  ghost predicate Inv(s: State) {
    Guarded.Inv(s, WorkOk, Ready, WellFormed)
  }

  lemma ClosingOk(op: Locks.OpId, w: Work, log: seq<Entry>)
    requires w.Closing? && WorkOk(op, w, log)
    ensures WellFormed(log)
  {
  }

  lemma CoreStepInv(s: State, c: Locks.Step<Work>, t: State)
    requires Inv(s) && Enabled(s, Core(c)) && t == Guarded.Moved(s, c)
    ensures Inv(t)
  {
    if c.Lookup? {
      var p := s.core.ops[c.op];
      assert Guarded.WorksOn(s, c.op, p.key);
      ClosingOk(c.op, p.work, Guarded.LogOf(s, p.key));
    }
    Guarded.MoveInv(s, c, t, WorkOk, Ready, WellFormed);
  }

  lemma InsideStepInv(s: State, op: Locks.OpId, work: WorkStep, t: State)
    requires Inv(s) && Enabled(s, Inside(op, work)) && t == Apply(s, Inside(op, work))
    ensures Inv(t)
  {
    var p := s.core.ops[op];
    assert Guarded.WorksOn(s, op, p.key);
    var (w, log) := WorkApply(op, p.work, Guarded.LogOf(s, p.key), work);
    WorkStepOk(op, p.work, Guarded.LogOf(s, p.key), work, w, log);
    Guarded.WorkInv(s, op, w, log, t, WorkOk, Ready, WellFormed);
  }

  lemma StepInv(s: State, step: Step, t: State)
    requires Inv(s) && Enabled(s, step) && t == Apply(s, step)
    ensures Inv(t)
  {
    match step
    case Core(c) => CoreStepInv(s, c, t);
    case Inside(op, work) => InsideStepInv(s, op, work, t);
  }

  predicate Runs(s: State, steps: seq<Step>)
    decreases |steps|
  {
    steps == [] || (Enabled(s, steps[0]) && Runs(Apply(s, steps[0]), steps[1..]))
  }

  function Final(s: State, steps: seq<Step>): State
    requires Runs(s, steps)
    decreases |steps|
  {
    if steps == [] then s else Final(Apply(s, steps[0]), steps[1..])
  }

  lemma {:induction false} RunInv(s: State, steps: seq<Step>, t: State)
    requires Inv(s) && Runs(s, steps) && t == Final(s, steps)
    ensures Inv(t)
    decreases |steps|
  {
    if steps != [] {
      var u := Apply(s, steps[0]);
      StepInv(s, steps[0], u);
      RunInv(u, steps[1..], t);
    }
  }

  /** A manager over a store of conversations. */
  function Initial(logs: map<string, seq<Entry>>): State {
    Guarded.State(Locks.Fresh(), logs)
  }

  lemma InitialInv(logs: map<string, seq<Entry>>)
    requires forall key :: key in logs ==> WellFormed(logs[key])
    ensures Inv(Initial(logs))
  {
    Locks.FreshInv(Initial(logs).core);
  }

  predicate Quiescent(s: State) {
    forall op :: op in s.core.ops ==> s.core.ops[op].Finished?
  }

  /** The turn that has written its question and not yet its answer. */
  predicate MidCommit(s: State, op: Locks.OpId, key: string) {
    && Guarded.WorksOn(s, op, key) && s.core.ops[op].work.Answering?
    && var log := Guarded.LogOf(s, key); log != [] && WellFormed(log[..|log| - 1])
  }

  lemma UnsettledIsMidCommit(op: Locks.OpId, w: Work, log: seq<Entry>)
    requires WorkOk(op, w, log) && !WellFormed(log)
    ensures w.Answering? && log != [] && WellFormed(log[..|log| - 1])
  {
    if w.Answering? {
      assert log[..|log| - 1] == w.turn.base + w.turn.mine;
    }
  }

  /** Every interleaving: at any moment a conversation is a sequence of summaries and question-answer
      pairs, except that the turn just committing may have written its question and not yet its answer;
      at quiescence there is no exception and no lock entry is left. */
  lemma EveryInterleaving(logs: map<string, seq<Entry>>, steps: seq<Step>)
    requires forall key :: key in logs ==> WellFormed(logs[key])
    requires Runs(Initial(logs), steps)
    ensures var s := Final(Initial(logs), steps);
            && (forall key :: WellFormed(Guarded.LogOf(s, key)) || exists op :: MidCommit(s, op, key))
            && (Quiescent(s) ==> s.core.table.locks == map[] && forall key :: WellFormed(Guarded.LogOf(s, key)))
  {
    var s := Final(Initial(logs), steps);
    InitialInv(logs);
    RunInv(Initial(logs), steps, s);
    Locks.EntriesAreUsed(s.core);
    forall key | !WellFormed(Guarded.LogOf(s, key))
      ensures exists op :: MidCommit(s, op, key)
    {
      var op :| Guarded.WorksOn(s, op, key);
      UnsettledIsMidCommit(op, s.core.ops[op].work, Guarded.LogOf(s, key));
      assert MidCommit(s, op, key);
    }
  }

  /** Isolation: in every reachable state, the log of the conversation a turn works on is what it loaded
      followed by what it wrote itself. */
  lemma TurnsAreIsolated(logs: map<string, seq<Entry>>, steps: seq<Step>, op: Locks.OpId, key: string)
    requires forall k :: k in logs ==> WellFormed(logs[k])
    requires Runs(Initial(logs), steps) && Guarded.WorksOn(Final(Initial(logs), steps), op, key)
    ensures var s := Final(Initial(logs), steps);
            match s.core.ops[op].work
            case Closing(base, mine) => Guarded.LogOf(s, key) == base + mine && OwnEntries(op, mine)
            case Open(t) => Guarded.LogOf(s, key) == t.base + t.mine && AllSummaries(t.mine)
            case Condensing(t, seen) => Guarded.LogOf(s, key) == seen
            case Running(t, _, _) => Guarded.LogOf(s, key) == t.base + t.mine && AllSummaries(t.mine)
            case Committing(t, _, _) => Guarded.LogOf(s, key) == t.base + t.mine && AllSummaries(t.mine)
            case Answering(t, _, _) => Guarded.LogOf(s, key) == t.base + t.mine + [UserEntry(op, t.user)]
                && AllSummaries(t.mine)
            case _ => true
  {
    InitialInv(logs);
    RunInv(Initial(logs), steps, Final(Initial(logs), steps));
  }

  /** A step of the caller that reads what its turn streams. */
  predicate ByReader(step: WorkStep) {
    step.InBridge? && Machine.ByCaller(step.step)
  }

  /** Work under the lock can always go on until it is closing, whatever the caller does with its stream. */
  lemma WorkProgress(op: Locks.OpId, w: Work, log: seq<Entry>)
    requires WorkOk(op, w, log) && !w.Closing?
    ensures exists step :: WorkEnabled(w, step) && !ByReader(step)
  {
    match w
    case Loading(_) => assert WorkEnabled(w, Load(true));
    case Open(_) => assert WorkEnabled(w, Abandon);
    case Condensing(_, _) => assert WorkEnabled(w, Summarize(None));
    case Running(_, events, b) =>
      if b.persist.Decided? {
        assert WorkEnabled(w, Finish);
      } else {
        Machine.Progress(b, RunItems(events));
        var step :| Machine.Enabled(b, step) && !Machine.ByCaller(step);
        assert WorkEnabled(w, InBridge(step));
      }
    case Committing(_, _, _) => assert WorkEnabled(w, AppendUser);
    case Answering(_, _, _) => assert WorkEnabled(w, AppendAnswer);
    case Deleting => assert WorkEnabled(w, Delete(true));
  }

  predicate StartedMoves(s: State, step: Step) {
    Enabled(s, step) && !(step.Core? && step.step.Enter?) && !(step.Inside? && ByReader(step.work))
  }

  /** The protocol never deadlocks: while some operation is unfinished, some started operation can move, even if
      nobody reads what the turns stream. */
  lemma NoDeadlock(s: State)
    requires Inv(s) && !Quiescent(s)
    ensures exists step :: StartedMoves(s, step)
  {
    var op :| op in s.core.ops && !s.core.ops[op].Finished?;
    if s.core.ops[op].Waiting? {
      Locks.WaiterIsServed(s.core, op);
      if Locks.Enabled(s.core, Locks.Acquire(op)) {
        assert StartedMoves(s, Core(Locks.Acquire(op)));
      } else {
        var h :| h in s.core.ops && Locks.Holds(s.core.ops[h], s.core.ops[op].lock);
        HolderMoves(s, h);
      }
    } else {
      HolderMoves(s, op);
    }
  }

  lemma HolderMoves(s: State, op: Locks.OpId)
    requires Inv(s) && op in s.core.ops && (s.core.ops[op].Held? || s.core.ops[op].Leaving? || s.core.ops[op].Unlocked?)
    ensures exists step :: StartedMoves(s, step)
  {
    match s.core.ops[op]
    case Held(key, _, w) =>
      if w.Closing? {
        assert StartedMoves(s, Core(Locks.Lookup(op)));
      } else {
        assert Guarded.WorksOn(s, op, key);
        WorkProgress(op, w, Guarded.LogOf(s, key));
        var step :| WorkEnabled(w, step) && !ByReader(step);
        assert StartedMoves(s, Inside(op, step));
      }
    case Leaving(_, _, _) => assert StartedMoves(s, Core(Locks.Unlock(op)));
    case Unlocked(_, _) => assert StartedMoves(s, Core(Locks.Drop(op)));
  }
}
