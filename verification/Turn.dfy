/** A single locked turn on one conversation, as its owner drives it: condense, window, then commit or discard. */
module Turn {
  import opened Wrappers
  import opened Messages
  import Window

  /** What a turn amounts to. `pendingUser` is Nil once it is written or dropped; `log` is the persisted
      conversation; `unlocks` counts calls of `sm.unlock`, `lateWrites` appends made after it. */
  datatype TurnState = TurnState(pendingUser: Message, committed: bool, log: seq<Message>, unlocks: nat,
      lateWrites: nat)

  function Opened(user: Message, log: seq<Message>): TurnState {
    TurnState(user, false, log, 0, 0)
  }

  function Release(t: TurnState): TurnState {
    if t.unlocks == 0 then t.(unlocks := 1) else t
  }

  function Write(t: TurnState, m: Message): TurnState {
    if m.Nil? then t else t.(log := t.log + [m], lateWrites := t.lateWrites + t.unlocks)
  }

  function Commit(t: TurnState, msg: Message): TurnState {
    if t.committed then t
    else Release(Write(Write(t.(committed := true), t.pendingUser).(pendingUser := Nil), msg))
  }

  function Discard(t: TurnState): TurnState {
    Release(t.(pendingUser := Nil))
  }

  type Summarizer = (seq<Message>, string) -> Option<string>

  /** `count` is the manager's counter, `storeCount` and `maxWindowTokens` belong to the store. */
  datatype Config = Config(
    summarizer: Option<Summarizer>,
    threshold: int,
    windowBudget: int,
    maxWindowTokens: int,
    count: Window.Counter,
    storeCount: Window.Counter)

  class Conversation {
    var log: seq<Message>

    constructor (log: seq<Message>)
      ensures this.log == log
    {
      this.log := log;
    }

    method Append(m: Message)
      modifies this
      ensures log == old(log) + [m]
    {
      log := log + [m];
    }

    /** Sets the summary marker before appending. */
    method AppendSummary(m: Message)
      requires m.Msg?
      modifies this
      ensures log == old(log) + [SetBoolMarker(m, SUMMARY_KEY)]
    {
      Append(SetBoolMarker(m, SUMMARY_KEY));
    }
  }

  /** The text of the last summary of a window, or "". */
  function SummaryText(window: seq<Message>): string {
    var i := Window.LastSummary(window);
    if i >= 0 then window[i].content else ""
  }

  method PreviousSummaryText(window: seq<Message>) returns (text: string)
    ensures text == SummaryText(window)
  {
    var i := Window.LastSummaryIndex(window);
    text := if i >= 0 then window[i].content else "";
  }

  class Turn {
    const cfg: Config
    const conv: Conversation
    var pendingUser: Message
    var committed: bool
    var unlocks: nat
    ghost var lateWrites: nat

    ghost function State(): TurnState
      reads this, conv
    {
      TurnState(pendingUser, committed, conv.log, unlocks, lateWrites)
    }

    constructor (cfg: Config, conv: Conversation, user: Message)
      ensures this.cfg == cfg && this.conv == conv && State() == Opened(user, conv.log)
    {
      this.cfg := cfg;
      this.conv := conv;
      pendingUser := user;
      committed, unlocks, lateWrites := false, 0, 0;
    }

    method ReleaseOnce()
      modifies this
      ensures State() == Release(old(State()))
    {
      if unlocks == 0 {
        unlocks := 1;
      }
    }

    method AppendMessage(m: Message)
      requires m.Msg?
      modifies this, conv
      ensures State() == Write(old(State()), m)
    {
      conv.Append(m);
      lateWrites := lateWrites + unlocks;
    }

    /** The windowed history with the pending user message after it. */
    method GetWindow(budget: int) returns (out: seq<Message>)
      ensures exists win :: Window.Windowed(conv.log, win, cfg.storeCount, Cap(budget)) && out == win + Pending()
    {
      var b := if budget <= 0 then cfg.windowBudget else budget;
      var win, calls := Window.SelectWindow(conv.log, cfg.storeCount, b, cfg.maxWindowTokens);
      if pendingUser.Nil? {
        out := win;
        assert out == win + Pending();
        return;
      }
      out := win + [pendingUser];
    }

    function Cap(budget: int): int {
      var b := if budget <= 0 then cfg.windowBudget else budget;
      if b <= 0 then cfg.maxWindowTokens else b
    }

    function Pending(): seq<Message>
      reads this
    {
      if pendingUser.Nil? then [] else [pendingUser]
    }

    /** A window of the log that is worth condensing: with the pending message it reaches the threshold. */
    ghost predicate WorthIt(log: seq<Message>, win: seq<Message>, pending: seq<Message>) {
      Window.Windowed(log, win, cfg.storeCount, Cap(0)) && cfg.count(win + pending) >= cfg.threshold
    }

    /** The summarizer was asked about a window of persisted messages and the last summary in it; its answer,
        if any, was appended as a summary. */
    ghost predicate Asked(log: seq<Message>, persisted: seq<Message>, r: Result<bool, ()>, after: seq<Message>)
      requires cfg.summarizer.Some?
    {
      && persisted != [] && Window.Windowed(log, persisted, cfg.storeCount, Cap(0))
      && match cfg.summarizer.value(persisted, SummaryText(persisted))
         case None => r == Err(()) && after == log
         case Some(text) => r == Ok(true) && after == log + [NewSummaryMessage(text)]
    }

    /** Appends at most a summary, and only when the history with the pending message, which stays, is
        worth it. */
    method Condense() returns (r: Result<bool, ()>, ghost win: seq<Message>, ghost persisted: seq<Message>)
      modifies conv
      ensures cfg.summarizer.None? || cfg.threshold <= 0 ==> r == Ok(false)
      ensures r == Ok(false) ==> conv.log == old(conv.log)
      ensures r != Ok(false) ==> WorthIt(old(conv.log), win, Pending()) && Asked(old(conv.log), persisted, r, conv.log)
    {
      win, persisted := [], [];
      if cfg.summarizer.None? || cfg.threshold <= 0 {
        return Ok(false), win, persisted;
      }
      var window := GetWindow(0);
      if cfg.count(window) < cfg.threshold {
        return Ok(false), win, persisted;
      }
      win :| Window.Windowed(conv.log, win, cfg.storeCount, Cap(0)) && window == win + Pending();
      var messages, calls := Window.SelectWindow(conv.log, cfg.storeCount, cfg.windowBudget, cfg.maxWindowTokens);
      if |messages| == 0 {
        return Ok(false), win, persisted;
      }
      persisted := messages;
      var previous := PreviousSummaryText(messages);
      var text := cfg.summarizer.value(messages, previous);
      if text.None? {
        return Err(()), win, persisted;
      }
      var summary := NewSummaryMessage(text.value);
      assert summary.extra[SUMMARY_KEY := Flag(true)] == summary.extra;
      conv.AppendSummary(summary);
      r := Ok(true);
    }

    method CommitAssistant(msg: Message) returns (ok: bool)
      modifies this, conv
      ensures State() == Commit(old(State()), msg)
      ensures ok == !old(committed)
    {
      if committed {
        return false;
      }
      committed := true;
      if pendingUser.Msg? {
        AppendMessage(pendingUser);
        pendingUser := Nil;
      }
      if msg.Msg? {
        AppendMessage(msg);
      }
      ReleaseOnce();
      ok := true;
    }

    method DiscardTurn()
      modifies this
      ensures State() == Discard(old(State()))
    {
      pendingUser := Nil;
      ReleaseOnce();
    }
  }

  // ----- every sequence of finishing calls -----

  datatype Call = CommitCall(msg: Message) | DiscardCall

  function Calls(t: TurnState, calls: seq<Call>): TurnState
    decreases |calls|
  {
    if calls == [] then t
    else Calls(if calls[0].CommitCall? then Commit(t, calls[0].msg) else Discard(t), calls[1..])
  }

  /** The first commit has an answer to write exactly when there is still a user message to go with it. */
  predicate Orderly(calls: seq<Call>, gone: bool) {
    if calls == [] then true
    else if calls[0].DiscardCall? then Orderly(calls[1..], true)
    else gone <==> calls[0].msg.Nil?
  }

  /** Nothing written, or a user message directly followed by an answer, and all of it under the lock. */
  ghost predicate WritesPair(before: seq<Message>, t: TurnState, user: Message) {
    && t.lateWrites == 0
    && (t.log == before || (user.Msg? && exists answer: Message :: answer.Msg? && t.log == before + [user, answer]))
  }

  lemma {:induction false} CommittedIsFinal(t: TurnState, calls: seq<Call>)
    requires t.committed && t.unlocks == 1 && t.pendingUser.Nil?
    ensures Calls(t, calls) == t
    decreases |calls|
  {
    if calls != [] {
      CommittedIsFinal(t, calls[1..]);
    }
  }

  lemma {:induction false} DiscardedCalls(t: TurnState, calls: seq<Call>)
    requires t.pendingUser.Nil? && !t.committed && t.unlocks == 1 && t.lateWrites == 0
    ensures Orderly(calls, true) ==> Calls(t, calls).log == t.log && Calls(t, calls).lateWrites == 0
    ensures !Orderly(calls, true) ==> Calls(t, calls).lateWrites > 0
    ensures Calls(t, calls).unlocks == 1
    decreases |calls|
  {
    if calls != [] {
      if calls[0].DiscardCall? {
        DiscardedCalls(t, calls[1..]);
      } else {
        CommittedIsFinal(Commit(t, calls[0].msg), calls[1..]);
      }
    }
  }

  /** A turn writes the user message and its answer together, under the lock, or writes nothing, if and
      only if its first commit has an answer exactly when the user message is still pending. So a commit
      after an early discard writes an unlocked answer without its question, a commit without an answer
      leaves the question dangling, and a turn begun without a user message writes a lone answer. However
      often the turn is finished, it is released once. */
  lemma TurnWritesPairIff(user: Message, log: seq<Message>, calls: seq<Call>)
    ensures WritesPair(log, Calls(Opened(user, log), calls), user) <==> Orderly(calls, user.Nil?)
    ensures Calls(Opened(user, log), calls).unlocks == if calls == [] then 0 else 1
  {
    var t := Opened(user, log);
    if calls != [] {
      if calls[0].DiscardCall? {
        DiscardedCalls(Discard(t), calls[1..]);
      } else {
        var u := Commit(t, calls[0].msg);
        CommittedIsFinal(u, calls[1..]);
        if user.Msg? && calls[0].msg.Msg? {
          assert u.log == log + [user, calls[0].msg];
        } else if user.Msg? || calls[0].msg.Msg? {
          assert |u.log| == |log| + 1;
        }
      }
    }
  }
}
