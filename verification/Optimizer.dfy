/** The context optimizer: trim, compress, prune, compact and steer. */
module Optimizer {
  import opened Wrappers
  import opened Messages
  import Window
  import Prune
  import Tail
  import Store = ContentStore

  const COMPRESSED_KEY := "__eino_ext_contextopt_compressed"
  const STEERED_KEY := "__eino_ext_contextopt_verbosity_steer"

  type Counter = seq<Message> -> int

  datatype Error = CompressorFailed | OffloadFailed | SummarizeFailed

  /** What a compressor answers. Neither determinism beyond being a function nor idempotence is assumed. */
  datatype Compression = Compression(text: string, changed: bool) | Failed

  type Compressor = string -> Compression
  type Summarizer = (seq<Message>, string) -> Option<string>

  /** `steer` is the configured text after trimming white space. */
  datatype Config = Config(
    contextLimit: int, maxInputTokens: int, reservedTokens: int,
    tailTurns: int, preserveRecentTokens: int,
    pruneToolOutputs: bool, pruneProtectTokens: int, pruneMinimum: int, toolOutputMaxChars: int,
        protectedTools: set<string>,
    count: Counter, summarizer: Option<Summarizer>, compressors: seq<Compressor>, steer: string)

  function PruneConfig(cfg: Config): Prune.Config {
    Prune.Config(cfg.tailTurns, cfg.pruneProtectTokens, cfg.pruneMinimum, cfg.toolOutputMaxChars, cfg.protectedTools,
        cfg.count)
  }

  function Usable(cfg: Config): int {
    var base := if cfg.maxInputTokens > 0 then cfg.maxInputTokens else cfg.contextLimit;
    if base <= 0 then 0 else if base > cfg.reservedTokens then base - cfg.reservedTokens else 0
  }

  predicate IsOverflow(cfg: Config, msgs: seq<Message>) {
    Usable(cfg) > 0 && cfg.count(msgs) >= Usable(cfg)
  }

  // ----- trim -----

  method TrimBeforeLastSummary(msgs: seq<Message>) returns (out: seq<Message>)
    ensures out == Window.Recent(msgs)
  {
    var last := -1;
    for i := 0 to |msgs|
      invariant last == Window.LastSummary(msgs[..i])
    {
      assert msgs[..i + 1][..i] == msgs[..i];
      if IsSummary(msgs[i]) {
        last := i;
      }
    }
    assert msgs[..|msgs|] == msgs;
    if last < 0 {
      return msgs;
    }
    return msgs[last..];
  }

  // ----- compress -----

  predicate NeedsCompression(m: Message) {
    m.Msg? && m.role.Tool? && !Prune.IsPruned(m) && !HasBoolMarker(m, COMPRESSED_KEY) && m.content != ""
  }

  /** All compressors in order, each on what the one before it left. */
  function Compressed(cs: seq<Compressor>, content: string): Option<string> {
    if cs == [] then Some(content)
    else match Compressed(cs[..|cs| - 1], content)
      case None => None
      case Some(text) =>
        match cs[|cs| - 1](text)
        case Failed => None
        case Compression(next, changed) => Some(if changed then next else text)
  }

  function Marked(m: Message, content: string): Message
    requires m.Msg?
  {
    m.(content := content, extra := m.extra[COMPRESSED_KEY := Flag(true)])
  }

  function CompressedAll(cs: seq<Compressor>, msgs: seq<Message>): (r: Option<seq<Message>>)
    ensures r.Some? ==> |r.value| == |msgs|
  {
    if msgs == [] then Some([])
    else
      var m := msgs[|msgs| - 1];
      match CompressedAll(cs, msgs[..|msgs| - 1])
      case None => None
      case Some(done) =>
        if !NeedsCompression(m) then Some(done + [m])
        else match Compressed(cs, m.content)
          case None => None
          case Some(text) => Some(done + [Marked(m, text)])
  }

  method ApplyContentCompressors(cs: seq<Compressor>, msgs: seq<Message>) returns (r: Option<seq<Message>>)
    ensures r == if cs == [] then Some(msgs) else CompressedAll(cs, msgs)
  {
    if |cs| == 0 {
      return Some(msgs);
    }
    var out := msgs;
    for i := 0 to |msgs|
      invariant |out| == |msgs| && out[i..] == msgs[i..]
      invariant CompressedAll(cs, msgs[..i]) == Some(out[..i])
    {
      assert msgs[..i + 1][..i] == msgs[..i] && out[i] == msgs[i..][0] == msgs[i];
      ghost var before := out;
      if NeedsCompression(msgs[i]) {
        var content := CompressOne(cs, msgs[i].content);
        if content.None? {
          FailureSticks(cs, msgs, i + 1);
          return None;
        }
        out := out[i := Marked(msgs[i], content.value)];
      }
      assert out[..i + 1] == before[..i] + [out[i]];
      assert out[i + 1..] == msgs[i..][1..];
    }
    assert msgs[..|msgs|] == msgs && out[..|out|] == out;
    r := Some(out);
  }

  method CompressOne(cs: seq<Compressor>, content: string) returns (r: Option<string>)
    ensures r == Compressed(cs, content)
  {
    var text := content;
    for j := 0 to |cs|
      invariant Compressed(cs[..j], content) == Some(text)
    {
      assert cs[..j + 1][..j] == cs[..j];
      var next := cs[j](text);
      if next.Failed? {
        NoneSticks(cs, content, j + 1);
        return None;
      }
      if next.changed {
        text := next.text;
      }
    }
    assert cs[..|cs|] == cs;
    r := Some(text);
  }

  lemma {:induction false} NoneSticks(cs: seq<Compressor>, content: string, j: nat)
    requires j <= |cs| && Compressed(cs[..j], content).None?
    ensures Compressed(cs, content).None?
    decreases |cs| - j
  {
    if j == |cs| {
      assert cs[..j] == cs;
    } else {
      assert cs[..j + 1][..j] == cs[..j];
      NoneSticks(cs, content, j + 1);
    }
  }

  lemma {:induction false} FailureSticks(cs: seq<Compressor>, msgs: seq<Message>, i: nat)
    requires i <= |msgs| && CompressedAll(cs, msgs[..i]).None?
    ensures CompressedAll(cs, msgs).None?
    decreases |msgs| - i
  {
    if i == |msgs| {
      assert msgs[..i] == msgs;
    } else {
      assert msgs[..i + 1][..i] == msgs[..i];
      FailureSticks(cs, msgs, i + 1);
    }
  }

  /** Compression touches only tool outputs it has not seen, and leaves nothing to compress. */
  lemma {:induction false} CompressionSettles(cs: seq<Compressor>, msgs: seq<Message>, i: nat)
    requires CompressedAll(cs, msgs).Some? && i < |msgs|
    ensures var m, c := msgs[i], CompressedAll(cs, msgs).value[i];
            && !NeedsCompression(c)
            && (c == m || (NeedsCompression(m) && c.Msg? && c == Marked(m, c.content)))
  {
    if i < |msgs| - 1 {
      CompressionSettles(cs, msgs[..|msgs| - 1], i);
    }
  }

  lemma {:induction false} NothingToCompress(cs: seq<Compressor>, msgs: seq<Message>)
    requires forall i :: 0 <= i < |msgs| ==> !NeedsCompression(msgs[i])
    ensures CompressedAll(cs, msgs) == Some(msgs)
  {
    if msgs != [] {
      NothingToCompress(cs, msgs[..|msgs| - 1]);
      assert msgs[..|msgs| - 1] + [msgs[|msgs| - 1]] == msgs;
    }
  }

  // ----- steer -----

  /** The first system message at or after `i`, or the length. */
  function FirstSystem(msgs: seq<Message>, i: nat): (r: nat)
    requires i <= |msgs|
    ensures i <= r <= |msgs|
    ensures r < |msgs| ==> msgs[r].Msg? && msgs[r].role.System?
    ensures forall k :: i <= k < r ==> !(msgs[k].Msg? && msgs[k].role.System?)
    decreases |msgs| - i
  {
    if i == |msgs| || (msgs[i].Msg? && msgs[i].role.System?) then i else FirstSystem(msgs, i + 1)
  }

  function Steered(steer: string, msgs: seq<Message>): (out: seq<Message>)
    ensures |out| == |msgs|
  {
    var i := FirstSystem(msgs, 0);
    if steer == "" || i == |msgs| || HasBoolMarker(msgs[i], STEERED_KEY) then msgs
    else
      msgs[i := msgs[i].(content := msgs[i].content + "\n\n" + steer,
                         extra := msgs[i].extra[STEERED_KEY := Flag(true)])]
  }

  method ApplyVerbositySteer(steer: string, msgs: seq<Message>) returns (out: seq<Message>)
    ensures out == Steered(steer, msgs)
  {
    if steer == "" {
      return msgs;
    }
    for i := 0 to |msgs|
      invariant FirstSystem(msgs, 0) == FirstSystem(msgs, i)
    {
      if msgs[i].Nil? || !msgs[i].role.System? {
        continue;
      }
      if HasBoolMarker(msgs[i], STEERED_KEY) {
        return msgs;
      }
      var m := msgs[i];
      return msgs[i := m.(content := m.content + "\n\n" + steer, extra := m.extra[STEERED_KEY := Flag(true)])];
    }
    return msgs;
  }

  /** Steering appends to the first system message only, and a second time changes nothing. */
  lemma SteerSettles(steer: string, msgs: seq<Message>)
    ensures Steered(steer, Steered(steer, msgs)) == Steered(steer, msgs)
    ensures forall i :: 0 <= i < |msgs| ==> Prune.Alike(msgs[i], Steered(steer, msgs)[i])
    ensures forall i :: 0 <= i < |msgs| && msgs[i].Msg? ==> msgs[i].content <= Steered(steer, msgs)[i].content
    ensures forall i :: 0 <= i < |msgs| ==> IsSummary(Steered(steer, msgs)[i]) == IsSummary(msgs[i])
  {
    var out, i := Steered(steer, msgs), FirstSystem(msgs, 0);
    if out != msgs {
      FirstSystemStays(msgs, out, 0);
      assert msgs[i].content + ("\n\n" + steer) == out[i].content;
    }
  }

  lemma {:induction false} FirstSystemStays(a: seq<Message>, b: seq<Message>, i: nat)
    requires |a| == |b| && i <= |a| && forall k :: 0 <= k < |a| ==> Prune.Alike(a[k], b[k])
    ensures FirstSystem(a, i) == FirstSystem(b, i)
    decreases |a| - i
  {
    if i < |a| {
      assert Prune.Alike(a[i], b[i]);
      FirstSystemStays(a, b, i + 1);
    }
  }

  // ----- the pipeline -----

  /** Trimmed, compressed and pruned. */
  ghost function Piped(cfg: Config, backend: Store.Store?, msgs: seq<Message>): Result<seq<Message>, Error> {
    var t := Window.Recent(msgs);
    var c := if cfg.compressors == [] then Some(t) else CompressedAll(cfg.compressors, t);
    if c.None? then Err(CompressorFailed)
    else if !cfg.pruneToolOutputs then Ok(c.value)
    else if Prune.Refused(PruneConfig(cfg), backend, c.value) then Err(OffloadFailed)
    else Ok(Prune.Pruned(PruneConfig(cfg), Prune.HashOf(backend), c.value))
  }

  function TailStart(cfg: Config, piped: seq<Message>): nat {
    Tail.TailStart(piped, cfg.tailTurns, cfg.preserveRecentTokens, cfg.count)
  }

  function LastSummaryText(msgs: seq<Message>): string {
    var i := Window.LastSummary(msgs);
    if i >= 0 then msgs[i].content else ""
  }

  function Compacted(cfg: Config, piped: seq<Message>): Result<seq<Message>, Error>
    requires cfg.summarizer.Some?
  {
    var k := TailStart(cfg, piped);
    match cfg.summarizer.value(piped[..k], LastSummaryText(piped))
    case None => Err(SummarizeFailed)
    case Some(text) => Ok([NewSummaryMessage(text)] + piped[k..])
  }

  ghost function Optimized(cfg: Config, backend: Store.Store?, msgs: seq<Message>): Result<seq<Message>, Error> {
    match Piped(cfg, backend, msgs)
    case Err(e) => Err(e)
    case Ok(piped) =>
      if !IsOverflow(cfg, piped) || cfg.summarizer.None? then Ok(Steered(cfg.steer, piped))
      else match Compacted(cfg, piped)
        case Err(e) => Err(e)
        case Ok(out) => Ok(Steered(cfg.steer, out))
  }

  class Optimizer {
    const cfg: Config
    const backend: Store.Store?

    constructor (cfg: Config, backend: Store.Store?)
      ensures this.cfg == cfg && this.backend == backend
    {
      this.cfg := cfg;
      this.backend := backend;
    }

    /** `Optimize`. The only thing it changes is the backend, by puts. */
    method Optimize(msgs: seq<Message>) returns (r: Result<seq<Message>, Error>, ghost puts: seq<string>)
      modifies backend
      ensures r == Optimized(cfg, backend, msgs)
      ensures backend != null ==> backend.data == Store.PutAll(old(backend.data), backend.hash, puts)
    {
      puts := [];
      var out := TrimBeforeLastSummary(msgs);
      var c := ApplyContentCompressors(cfg.compressors, out);
      if c.None? {
        return Err(CompressorFailed), puts;
      }
      out := c.value;
      if cfg.pruneToolOutputs {
        var p;
        p, puts := Prune.PruneToolOutputs(PruneConfig(cfg), backend, out);
        if p.Err? {
          return Err(OffloadFailed), puts;
        }
        out := p.value;
      }
      if !IsOverflow(cfg, out) || cfg.summarizer.None? {
        var steered := ApplyVerbositySteer(cfg.steer, out);
        return Ok(steered), puts;
      }
      var head, tailStart := Tail.SelectTail(out, cfg.tailTurns, cfg.preserveRecentTokens, cfg.count);
      var text := cfg.summarizer.value(head, LastSummaryText(out));
      if text.None? {
        return Err(SummarizeFailed), puts;
      }
      var result := [NewSummaryMessage(text.value)] + out[tailStart..];
      var steered := ApplyVerbositySteer(cfg.steer, result);
      r := Ok(steered);
    }
  }

  // ----- what the pipeline promises -----

  /** Until compaction the pipeline keeps every message's place and role, and all summary markers. */
  lemma PipedKeepsShape(cfg: Config, backend: Store.Store?, msgs: seq<Message>)
    requires Piped(cfg, backend, msgs).Ok?
    ensures var t, p := Window.Recent(msgs), Piped(cfg, backend, msgs).value;
            && |p| == |t|
            && (forall i :: 0 <= i < |t| ==> Prune.SameSkeleton(t[i], p[i]) && IsSummary(p[i]) == IsSummary(t[i]))
            && (cfg.compressors != [] ==> forall i :: 0 <= i < |p| ==> !NeedsCompression(p[i]))
  {
    var t := Window.Recent(msgs);
    var c := if cfg.compressors == [] then t else CompressedAll(cfg.compressors, t).value;
    var p := Piped(cfg, backend, msgs).value;
    forall i | 0 <= i < |t|
      ensures Prune.SameSkeleton(t[i], p[i]) && IsSummary(p[i]) == IsSummary(t[i])
      ensures cfg.compressors != [] ==> !NeedsCompression(p[i])
    {
      if cfg.compressors != [] {
        CompressionSettles(cfg.compressors, t, i);
      }
      Prune.PrunedAt(PruneConfig(cfg), Prune.HashOf(backend), c, i);
    }
  }

  /** A history whose only summary, if any, is its first message is not trimmed. */
  lemma NothingToTrim(msgs: seq<Message>)
    requires forall i :: 0 < i < |msgs| ==> !IsSummary(msgs[i])
    ensures Window.Recent(msgs) == msgs
  {
  }

  /** Without a summarizer, optimizing an optimized history changes nothing, whatever the compressors,
      the pruning, the backend and the steer. */
  lemma OptimizeIsIdempotent(cfg: Config, backend: Store.Store?, msgs: seq<Message>)
    requires cfg.summarizer.None? && Optimized(cfg, backend, msgs).Ok?
    ensures Optimized(cfg, backend, Optimized(cfg, backend, msgs).value) == Optimized(cfg, backend, msgs)
  {
    var p, s := Piped(cfg, backend, msgs).value, Optimized(cfg, backend, msgs).value;
    PipedKeepsShape(cfg, backend, msgs);
    SteerSettles(cfg.steer, p);
    NothingToTrim(s);
    forall i | 0 <= i < |s|
      ensures cfg.compressors != [] ==> !NeedsCompression(s[i])
    {
      assert Prune.Alike(p[i], s[i]);
    }
    if cfg.compressors != [] {
      NothingToCompress(cfg.compressors, s);
    }
    if cfg.pruneToolOutputs {
      var c := if cfg.compressors == [] then Window.Recent(msgs)
          else CompressedAll(cfg.compressors, Window.Recent(msgs)).value;
      Prune.PruneSettles(PruneConfig(cfg), Prune.HashOf(backend), c, s);
      assert Prune.Pruned(PruneConfig(cfg), Prune.HashOf(backend), s) == s;
    }
  }

  /** What compaction makes of a piped history. */
  ghost predicate Conserves(cfg: Config, piped: seq<Message>, out: seq<Message>)
    requires cfg.summarizer.Some?
  {
    var head, tail := piped[..TailStart(cfg, piped)], piped[TailStart(cfg, piped)..];
    var text := cfg.summarizer.value(head, LastSummaryText(piped));
    && head + tail == piped
    && text.Some? && |out| == 1 + |tail| && out[0] == NewSummaryMessage(text.value)
    && (forall i :: 0 <= i < |tail| ==> Prune.Alike(tail[i], out[1 + i]))
    && (forall i :: 0 <= i < |out| ==> (IsSummary(out[i]) <==> i == 0))
    && (Tail.IsDefault(cfg.count) && tail != [] ==>
        Tokens(tail) <= cfg.preserveRecentTokens + 3 * Tail.Min(cfg.tailTurns, cfg.preserveRecentTokens) / 4)
  }

  lemma SteeredCompactionConserves(cfg: Config, piped: seq<Message>)
    requires cfg.summarizer.Some? && Compacted(cfg, piped).Ok?
    requires forall i :: 0 < i < |piped| ==> !IsSummary(piped[i])
    ensures Conserves(cfg, piped, Steered(cfg.steer, Compacted(cfg, piped).value))
  {
    var r := Compacted(cfg, piped).value;
    SteerSettles(cfg.steer, r);
    if Tail.IsDefault(cfg.count) && TailStart(cfg, piped) < |piped| {
      Tail.TailBound(piped, cfg.tailTurns, cfg.preserveRecentTokens, cfg.count);
    }
    assert Prune.Alike(r[0], Steered(cfg.steer, r)[0]);
  }

  /** Compaction: the summarizer is given exactly the head, the tail is kept in place, and the result has
      one summary, its first message. Under the default counter the tail counts at most its budget and
      three quarters of a token for each turn. */
  lemma CompactionConserves(cfg: Config, backend: Store.Store?, msgs: seq<Message>)
    requires cfg.summarizer.Some? && Piped(cfg, backend, msgs).Ok? && IsOverflow(cfg, Piped(cfg, backend, msgs).value)
    requires Optimized(cfg, backend, msgs).Ok?
    ensures Conserves(cfg, Piped(cfg, backend, msgs).value, Optimized(cfg, backend, msgs).value)
  {
    PipedKeepsShape(cfg, backend, msgs);
    SteeredCompactionConserves(cfg, Piped(cfg, backend, msgs).value);
  }
}
