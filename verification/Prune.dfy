/** Pruning of stale tool outputs: a backward scan with a protected recent window and barriers. */
module Prune {
  import opened Wrappers
  import opened Text
  import opened Messages
  import Store = ContentStore

  const PRUNED_KEY := "__eino_ext_contextopt_pruned"
  const PRUNE_REF_KEY := "__eino_ext_contextopt_pruned_ref"
  const PROTECTED_RECENT_TURNS := 2

  type Counter = seq<Message> -> int

  datatype Config = Config(
    tailTurns: int, protectTokens: int, minimum: int, maxChars: int, protectedTools: set<string>, count: Counter)

  predicate IsPruned(m: Message) {
    HasBoolMarker(m, PRUNED_KEY)
  }

  // ----- tool names -----

  function AddNames(names: map<string, string>, calls: seq<ToolCall>): map<string, string> {
    if calls == [] then names
    else
      var before, tc := AddNames(names, calls[..|calls| - 1]), calls[|calls| - 1];
      if tc.id != "" then before[tc.id := tc.name] else before
  }

  function NamesOf(msgs: seq<Message>): map<string, string> {
    if msgs == [] then map[]
    else
      var before, m := NamesOf(msgs[..|msgs| - 1]), msgs[|msgs| - 1];
      if m.Nil? then before else AddNames(before, m.toolCalls)
  }

  method ToolNamesByCallID(msgs: seq<Message>) returns (names: map<string, string>)
    ensures names == NamesOf(msgs)
  {
    names := map[];
    for i := 0 to |msgs|
      invariant names == NamesOf(msgs[..i])
    {
      assert msgs[..i + 1][..i] == msgs[..i];
      if msgs[i].Nil? {
        continue;
      }
      ghost var before := names;
      var calls := msgs[i].toolCalls;
      for j := 0 to |calls|
        invariant names == AddNames(before, calls[..j])
      {
        assert calls[..j + 1][..j] == calls[..j];
        if calls[j].id != "" {
          names := names[calls[j].id := calls[j].name];
        }
      }
      assert calls[..|calls|] == calls;
    }
    assert msgs[..|msgs|] == msgs;
  }

  // ----- which outputs are pruned, said position by position -----

  predicate Unprotected(cfg: Config, names: map<string, string>, m: Message) {
    m.Msg? && m.role.Tool? && (if m.toolCallId in names then names[m.toolCallId] else "") !in cfg.protectedTools
  }

  /** User messages from position `i` on. */
  function TurnsFrom(msgs: seq<Message>, i: nat): nat
    requires i <= |msgs|
    decreases |msgs| - i
  {
    if i == |msgs| then 0
    else TurnsFrom(msgs, i + 1) + if msgs[i].Msg? && msgs[i].role.User? then 1 else 0
  }

  function ProtectedTurns(cfg: Config): int {
    if cfg.tailTurns > PROTECTED_RECENT_TURNS then cfg.tailTurns else PROTECTED_RECENT_TURNS
  }

  /** Outside the protected recent turns. */
  predicate Stale(cfg: Config, msgs: seq<Message>, i: nat)
    requires i < |msgs|
  {
    msgs[i].Msg? && TurnsFrom(msgs, i) >= ProtectedTurns(cfg)
  }

  /** Nothing before a stale summary or a stale output that is pruned already is looked at. */
  predicate Barrier(cfg: Config, names: map<string, string>, msgs: seq<Message>, i: nat)
    requires i < |msgs|
  {
    && Stale(cfg, msgs, i)
    && ((msgs[i].role.Assistant? && IsSummary(msgs[i])) || (Unprotected(cfg, names, msgs[i]) && IsPruned(msgs[i])))
  }

  predicate Eligible(cfg: Config, names: map<string, string>, msgs: seq<Message>, i: nat)
    requires i < |msgs|
  {
    && Stale(cfg, msgs, i) && Unprotected(cfg, names, msgs[i]) && !IsPruned(msgs[i])
    && forall j :: i < j < |msgs| ==> !Barrier(cfg, names, msgs, j)
  }

  /** Tokens of the eligible outputs from position `i` on. */
  function EligibleTokens(cfg: Config, names: map<string, string>, msgs: seq<Message>, i: nat): int
    requires i <= |msgs|
    decreases |msgs| - i
  {
    if i == |msgs| then 0
    else EligibleTokens(cfg, names, msgs, i + 1) + if Eligible(cfg, names, msgs, i) then cfg.count([msgs[i]]) else 0
  }

  /** Eligible, and beyond the protected window of tokens. */
  predicate Prunable(cfg: Config, names: map<string, string>, msgs: seq<Message>, i: nat)
    requires i < |msgs|
  {
    Eligible(cfg, names, msgs, i) && EligibleTokens(cfg, names, msgs, i) > cfg.protectTokens
  }

  function PrunableTokens(cfg: Config, names: map<string, string>, msgs: seq<Message>, i: nat): int
    requires i <= |msgs|
    decreases |msgs| - i
  {
    if i == |msgs| then 0
    else PrunableTokens(cfg, names, msgs, i + 1) + if Prunable(cfg, names, msgs, i) then cfg.count([msgs[i]]) else 0
  }

  function PrunableFrom(cfg: Config, names: map<string, string>, msgs: seq<Message>, i: nat): set<nat>
    requires i <= |msgs|
  {
    set k: nat | i <= k < |msgs| && Prunable(cfg, names, msgs, k)
  }

  /** The positions whose output is replaced. */
  function Chosen(cfg: Config, msgs: seq<Message>): set<nat> {
    var names := NamesOf(msgs);
    if PrunableTokens(cfg, names, msgs, 0) <= cfg.minimum then {} else PrunableFrom(cfg, names, msgs, 0)
  }

  lemma {:induction false} BarrierStops(cfg: Config, names: map<string, string>, msgs: seq<Message>, b: nat, i: nat)
    requires i <= b < |msgs| && Barrier(cfg, names, msgs, b)
    ensures EligibleTokens(cfg, names, msgs, i) == EligibleTokens(cfg, names, msgs, b + 1)
    ensures PrunableTokens(cfg, names, msgs, i) == PrunableTokens(cfg, names, msgs, b + 1)
    ensures PrunableFrom(cfg, names, msgs, i) == PrunableFrom(cfg, names, msgs, b + 1)
    decreases b - i
  {
    assert !Eligible(cfg, names, msgs, i);
    if i < b {
      BarrierStops(cfg, names, msgs, b, i + 1);
    }
  }

  /** The scan, from the last message back to the first barrier. */
  method Scan(cfg: Config, names: map<string, string>, msgs: seq<Message>) returns (pruned: int, toPrune: set<nat>)
    ensures pruned == PrunableTokens(cfg, names, msgs, 0)
    ensures toPrune == PrunableFrom(cfg, names, msgs, 0)
  {
    var total, turns := 0, 0;
    pruned, toPrune := 0, {};
    var i := |msgs|;
    while i > 0
      invariant 0 <= i <= |msgs|
      invariant turns == TurnsFrom(msgs, i)
      invariant total == EligibleTokens(cfg, names, msgs, i)
      invariant pruned == PrunableTokens(cfg, names, msgs, i)
      invariant toPrune == PrunableFrom(cfg, names, msgs, i)
      invariant forall j :: i <= j < |msgs| ==> !Barrier(cfg, names, msgs, j)
    {
      i := i - 1;
      var msg := msgs[i];
      assert PrunableFrom(cfg, names, msgs, i)
          == PrunableFrom(cfg, names, msgs, i + 1) + if Prunable(cfg, names, msgs, i) then {i} else {};
      if msg.Nil? {
        continue;
      }
      if msg.role.User? {
        turns := turns + 1;
      }
      if turns < ProtectedTurns(cfg) {
        continue;
      }
      if msg.role.Assistant? && IsSummary(msg) {
        BarrierStops(cfg, names, msgs, i, 0);
        return;
      }
      if !msg.role.Tool? || !Unprotected(cfg, names, msg) {
        continue;
      }
      if IsPruned(msg) {
        BarrierStops(cfg, names, msgs, i, 0);
        return;
      }
      var est := cfg.count([msg]);
      total := total + est;
      if total <= cfg.protectTokens {
        continue;
      }
      pruned := pruned + est;
      toPrune := toPrune + {i};
    }
  }

  // ----- replacing -----

  /** `strutil.Truncate`. */
  function Truncate(s: string, maxLen: int, marker: string): string {
    if maxLen <= 0 || |s| <= maxLen then s else s[..maxLen] + marker
  }

  /** The copy put in place of a pruned output: a handle when there is a backend, else a prefix. */
  function PrunedCopy(cfg: Config, hash: Option<Store.Hash>, m: Message): Message
    requires m.Msg?
  {
    match hash
    case None =>
      m.(content := Truncate(m.content, cfg.maxChars, "\n\n[output pruned to save context]"),
         extra := m.extra[PRUNED_KEY := Flag(true)])
    case Some(h) =>
      var key := Store.ContentKey(h, m.content);
      m.(content := "[output offloaded to backend: " + key + " (" + Decimal(ByteLen(m.content)) + " bytes)]",
         extra := m.extra[PRUNE_REF_KEY := Str(key)][PRUNED_KEY := Flag(true)])
  }

  function Replaced(cfg: Config, hash: Option<Store.Hash>, msgs: seq<Message>, at: set<nat>): (out: seq<Message>)
    requires forall i :: i in at ==> i < |msgs| && msgs[i].Msg?
    ensures |out| == |msgs|
  {
    seq(|msgs|, i requires 0 <= i < |msgs| => if i in at then PrunedCopy(cfg, hash, msgs[i]) else msgs[i])
  }

  lemma ChosenAreOutputs(cfg: Config, msgs: seq<Message>)
    ensures forall i :: i in Chosen(cfg, msgs) ==> i < |msgs| && Prunable(cfg, NamesOf(msgs), msgs, i)
  {
  }

  function Pruned(cfg: Config, hash: Option<Store.Hash>, msgs: seq<Message>): (out: seq<Message>)
    ensures |out| == |msgs|
  {
    ChosenAreOutputs(cfg, msgs);
    Replaced(cfg, hash, msgs, Chosen(cfg, msgs))
  }

  function HashOf(backend: Store.Store?): Option<Store.Hash> {
    if backend == null then None else Some(backend.hash)
  }

  /** Visits the chosen positions in whatever order the map yields them. The result does not depend on
      it; on success the backend has been given exactly the replaced contents. */
  method ReplaceAll(cfg: Config, backend: Store.Store?, msgs: seq<Message>, toPrune: set<nat>)
    returns (r: Result<seq<Message>, ()>, ghost puts: seq<string>)
    requires forall i :: i in toPrune ==> i < |msgs| && msgs[i].Msg?
    modifies backend
    ensures r.Ok? ==> r.value == Replaced(cfg, HashOf(backend), msgs, toPrune)
    ensures r.Err? <==> backend != null && exists i :: i in toPrune && backend.refuses(msgs[i].content)
    ensures backend != null ==> backend.data == Store.PutAll(old(backend.data), backend.hash, puts)
    ensures backend != null && r.Ok? ==> forall i :: i in toPrune ==> msgs[i].content in puts
    ensures forall c :: c in puts ==> exists i :: i in toPrune && c == msgs[i].content
  {
    var out := msgs;
    var todo := toPrune;
    puts := [];
    while todo != {}
      invariant todo <= toPrune
      invariant out == Replaced(cfg, HashOf(backend), msgs, toPrune - todo)
      invariant backend != null ==> backend.data == Store.PutAll(old(backend.data), backend.hash, puts)
      invariant forall c :: c in puts ==> exists i :: i in toPrune && c == msgs[i].content
      invariant backend != null ==> forall i :: i in toPrune - todo ==> msgs[i].content in puts
      invariant backend != null ==> forall i :: i in toPrune - todo ==> !backend.refuses(msgs[i].content)
    {
      var i :| i in todo;
      todo := todo - {i};
      assert toPrune - todo == (toPrune - (todo + {i})) + {i};
      if backend != null {
        var ref := backend.Put(msgs[i].content);
        if ref.Err? {
          return Err(()), puts;
        }
        ghost var before := puts;
        puts := puts + [msgs[i].content];
        assert puts[..|puts| - 1] == before;
      }
      out := out[i := PrunedCopy(cfg, HashOf(backend), msgs[i])];
    }
    assert toPrune - todo == toPrune;
    r := Ok(out);
  }

  /** `pruneToolOutputs`. */
  method PruneToolOutputs(cfg: Config, backend: Store.Store?, msgs: seq<Message>)
    returns (r: Result<seq<Message>, ()>, ghost puts: seq<string>)
    modifies backend
    ensures r.Ok? ==> r.value == Pruned(cfg, HashOf(backend), msgs)
    ensures r.Err? <==> Refused(cfg, backend, msgs)
    ensures backend != null ==> backend.data == Store.PutAll(old(backend.data), backend.hash, puts)
    ensures backend != null && r.Ok? ==> forall i :: i in Chosen(cfg, msgs) ==> msgs[i].content in puts
    ensures forall c :: c in puts ==> exists i :: i in Chosen(cfg, msgs) && c == msgs[i].content
  {
    puts := [];
    var names := ToolNamesByCallID(msgs);
    var pruned, toPrune := Scan(cfg, names, msgs);
    assert toPrune == {} || pruned <= cfg.minimum ==> Chosen(cfg, msgs) == {};
    if pruned <= cfg.minimum || |toPrune| == 0 {
      assert msgs == Pruned(cfg, HashOf(backend), msgs);
      return Ok(msgs), puts;
    }
    r, puts := ReplaceAll(cfg, backend, msgs, toPrune);
  }

  /** The backend refuses one of the outputs to be offloaded. */
  ghost predicate Refused(cfg: Config, backend: Store.Store?, msgs: seq<Message>)
  {
    backend != null && exists i :: i in Chosen(cfg, msgs) && backend.refuses(msgs[i].content)
  }

  lemma CopyKeeps(cfg: Config, hash: Option<Store.Hash>, m: Message)
    ensures m.Msg? ==>
              var p := PrunedCopy(cfg, hash, m);
              && p == m.(content := p.content, extra := p.extra) && IsPruned(p)
              && p.extra - {PRUNED_KEY, PRUNE_REF_KEY} == m.extra - {PRUNED_KEY, PRUNE_REF_KEY}
  {
  }

  /** What pruning may change: only the content of stale, unprotected tool outputs that were not pruned
      before, with no stale summary after them, and of their extras only the two markers. */
  lemma PruneIsConfined(cfg: Config, hash: Option<Store.Hash>, msgs: seq<Message>, i: nat)
    requires i < |msgs| && Pruned(cfg, hash, msgs)[i] != msgs[i]
    ensures var m, p := msgs[i], Pruned(cfg, hash, msgs)[i];
            && m.Msg? && m.role.Tool? && !IsPruned(m) && IsPruned(p)
            && Unprotected(cfg, NamesOf(msgs), m) && TurnsFrom(msgs, i) >= PROTECTED_RECENT_TURNS
            && (forall j :: i < j < |msgs| && Stale(cfg, msgs, j) && msgs[j].role.Assistant? ==> !IsSummary(msgs[j]))
            && p == m.(content := p.content, extra := p.extra)
            && p.extra - {PRUNED_KEY, PRUNE_REF_KEY} == m.extra - {PRUNED_KEY, PRUNE_REF_KEY}
  {
    ChosenAreOutputs(cfg, msgs);
    CopyKeeps(cfg, hash, msgs[i]);
    forall j | i < j < |msgs| && Stale(cfg, msgs, j) && msgs[j].role.Assistant?
      ensures !IsSummary(msgs[j])
    {
      assert !Barrier(cfg, NamesOf(msgs), msgs, j);
    }
  }

  // ----- restoring -----

  function Restored(data: map<string, string>, hash: Option<Store.Hash>, m: Message): Result<string, ()> {
    if m.Nil? then Ok("")
    else if hash.None? || PRUNE_REF_KEY !in m.extra || !m.extra[PRUNE_REF_KEY].Str?
        || m.extra[PRUNE_REF_KEY].text == "" then Ok(m.content)
    else if m.extra[PRUNE_REF_KEY].text in data then Ok(data[m.extra[PRUNE_REF_KEY].text])
    else Err(())
  }

  method RestorePruned(backend: Store.Store?, m: Message) returns (r: Result<string, ()>)
    ensures r == Restored(if backend == null then map[] else backend.data, HashOf(backend), m)
  {
    if m.Nil? {
      return Ok("");
    }
    if backend == null || PRUNE_REF_KEY !in m.extra || !m.extra[PRUNE_REF_KEY].Str?
        || m.extra[PRUNE_REF_KEY].text == "" {
      return Ok(m.content);
    }
    r := backend.Get(m.extra[PRUNE_REF_KEY].text);
  }

  /** Pruning with a backend is reversible: after the puts of the prune and through any later puts, every
      replaced output is restored exactly, if and only if no later content collides with it. */
  lemma PruneIsReversible(cfg: Config, hash: Store.Hash, msgs: seq<Message>, data: map<string, string>,
                          puts: seq<string>, later: seq<string>, i: nat)
    requires i in Chosen(cfg, msgs)
    requires forall k :: k in Chosen(cfg, msgs) ==> k < |msgs| && msgs[k].Msg? && msgs[k].content in puts
    requires forall c :: c in puts ==> !Store.Collide(hash, msgs[i].content, c)
    ensures (forall n :: 0 <= n <= |later| ==>
               Restored(Store.PutAll(Store.PutAll(data, hash, puts), hash, later[..n]), Some(hash),
                   Pruned(cfg, Some(hash), msgs)[i])
               == Ok(msgs[i].content))
            <==> (forall c :: c in later ==> !Store.Collide(hash, msgs[i].content, c))
  {
    var content, kept, p := msgs[i].content, Store.PutAll(data, hash, puts), Pruned(cfg, Some(hash), msgs)[i];
    Store.PutIsHeld(data, hash, content, puts);
    Store.KeptIff(kept, hash, content, later);
    assert p.extra[PRUNE_REF_KEY] == Str(Store.ContentKey(hash, content));
    forall n | 0 <= n <= |later|
      ensures Restored(Store.PutAll(kept, hash, later[..n]), Some(hash), p) == Ok(content)
              <==> Store.Holds(Store.PutAll(kept, hash, later[..n]), hash, content)
    {
    }
  }

  // ----- pruning again -----

  /** The same message, or two system messages with the same tool calls. */
  predicate Alike(a: Message, b: Message) {
    a == b || (a.Msg? && b.Msg? && a.role.System? && b.role.System? && a.toolCalls == b.toolCalls)
  }

  predicate SameSkeleton(a: Message, b: Message) {
    a.Nil? == b.Nil? && (a.Msg? && b.Msg? ==> a.role == b.role && a.toolCalls == b.toolCalls)
  }

  lemma {:induction false} SameNames(a: seq<Message>, b: seq<Message>)
    requires |a| == |b| && forall i :: 0 <= i < |a| ==> SameSkeleton(a[i], b[i])
    ensures NamesOf(a) == NamesOf(b)
  {
    if a != [] {
      SameNames(a[..|a| - 1], b[..|b| - 1]);
      assert SameSkeleton(a[|a| - 1], b[|b| - 1]);
    }
  }

  lemma {:induction false} SameTurns(a: seq<Message>, b: seq<Message>, i: nat)
    requires |a| == |b| && i <= |a| && forall k :: 0 <= k < |a| ==> SameSkeleton(a[k], b[k])
    ensures forall k :: i <= k <= |a| ==> TurnsFrom(a, k) == TurnsFrom(b, k)
    decreases |a| - i
  {
    if i < |a| {
      SameTurns(a, b, i + 1);
      assert SameSkeleton(a[i], b[i]);
    }
  }

  /** The scan of two histories agrees down to `i` when they are alike from there on. */
  lemma {:induction false} ScansAgree(cfg: Config, names: map<string, string>, a: seq<Message>, b: seq<Message>, i: nat)
    requires |a| == |b| && i <= |a|
    requires forall k :: i <= k < |a| ==> Alike(a[k], b[k]) && TurnsFrom(a, k) == TurnsFrom(b, k)
    ensures forall k :: i <= k < |a| ==> Barrier(cfg, names, a, k) == Barrier(cfg, names, b, k)
    ensures forall k :: i <= k < |a| ==> Prunable(cfg, names, a, k) == Prunable(cfg, names, b, k)
    ensures EligibleTokens(cfg, names, a, i) == EligibleTokens(cfg, names, b, i)
    ensures PrunableTokens(cfg, names, a, i) == PrunableTokens(cfg, names, b, i)
    decreases |a| - i
  {
    if i < |a| {
      ScansAgree(cfg, names, a, b, i + 1);
      assert Alike(a[i], b[i]);
      assert Eligible(cfg, names, a, i) == Eligible(cfg, names, b, i);
    }
  }

  /** After pruning, and whatever is done to system messages, there is nothing left to prune. */
  lemma PruneSettles(cfg: Config, hash: Option<Store.Hash>, msgs: seq<Message>, q: seq<Message>)
    requires |q| == |msgs| && forall i :: 0 <= i < |msgs| ==> Alike(Pruned(cfg, hash, msgs)[i], q[i])
    ensures Chosen(cfg, q) == {}
  {
    var p, names := Pruned(cfg, hash, msgs), NamesOf(msgs);
    ChosenAreOutputs(cfg, msgs);
    forall i | 0 <= i < |msgs|
      ensures SameSkeleton(msgs[i], q[i])
    {
      assert Alike(p[i], q[i]);
    }
    SameNames(msgs, q);
    SameTurns(msgs, q, 0);
    if Chosen(cfg, msgs) == {} {
      forall k | 0 <= k < |msgs|
        ensures Alike(msgs[k], q[k])
      {
        assert Alike(p[k], q[k]);
      }
      ScansAgree(cfg, names, msgs, q, 0);
      assert PrunableFrom(cfg, names, msgs, 0) == PrunableFrom(cfg, names, q, 0);
    } else {
      forall i: nat | i < |q|
        ensures !Prunable(cfg, names, q, i)
      {
        NothingNew(cfg, hash, msgs, q, i);
      }
    }
  }

  lemma PrunedAt(cfg: Config, hash: Option<Store.Hash>, msgs: seq<Message>, k: nat)
    requires k < |msgs|
    ensures var p := Pruned(cfg, hash, msgs)[k];
            if k in Chosen(cfg, msgs)
            then IsPruned(p) && Unprotected(cfg, NamesOf(msgs), p) && Unprotected(cfg, NamesOf(msgs), msgs[k])
            else p == msgs[k]
  {
    ChosenAreOutputs(cfg, msgs);
  }

  /** Nothing behind an output prunable in the second pass was pruned in the first: it would be a barrier. */
  lemma UnchangedBehind(cfg: Config, hash: Option<Store.Hash>, msgs: seq<Message>, q: seq<Message>, i: nat, k: nat)
    requires |q| == |msgs| && i <= k < |q| && Alike(Pruned(cfg, hash, msgs)[k], q[k])
    requires NamesOf(q) == NamesOf(msgs) && TurnsFrom(msgs, k) == TurnsFrom(q, k)
    requires Prunable(cfg, NamesOf(q), q, i)
    ensures Alike(msgs[k], q[k])
  {
    PrunedAt(cfg, hash, msgs, k);
    if k in Chosen(cfg, msgs) {
      ChosenAreOutputs(cfg, msgs);
      assert i < k ==> Barrier(cfg, NamesOf(q), q, k);
    }
  }

  /** An output prunable in the second pass would have been prunable, and so pruned, in the first. */
  lemma NothingNew(cfg: Config, hash: Option<Store.Hash>, msgs: seq<Message>, q: seq<Message>, i: nat)
    requires |q| == |msgs| && forall k :: 0 <= k < |msgs| ==> Alike(Pruned(cfg, hash, msgs)[k], q[k])
    requires Chosen(cfg, msgs) != {} && NamesOf(q) == NamesOf(msgs)
    requires forall k :: 0 <= k <= |msgs| ==> TurnsFrom(msgs, k) == TurnsFrom(q, k)
    requires i < |q|
    ensures !Prunable(cfg, NamesOf(q), q, i)
  {
    var names := NamesOf(msgs);
    if Prunable(cfg, names, q, i) {
      forall k | i <= k < |msgs|
        ensures Alike(msgs[k], q[k])
      {
        UnchangedBehind(cfg, hash, msgs, q, i, k);
      }
      ScansAgree(cfg, names, msgs, q, i);
      PrunedAt(cfg, hash, msgs, i);
    }
  }
}
