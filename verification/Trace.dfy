/** Rendering a run trace within a budget: the least important steps are dropped first. */
module Trace {
  import opened Text

  /** `Other` is a kind of any other name. */
  datatype Kind = AssistantText | ToolCall | ToolResult | TerminalAnswer | Other(name: string)

  datatype TraceStep = TraceStep(kind: Kind, agent: string, name: string, text: string)

  /** `redact` and `filter` are the configured functions, or the ones used when these are unset. */
  datatype Config = Config(maxStepChars: int, maxChars: int, redact: string -> string, filter: TraceStep -> bool)

  const DEFAULT_MAX_STEP_CHARS := 1500
  const DEFAULT_MAX_CHARS := 12000

  /** Lower ranks are kept first. */
  function Rank(k: Kind): nat {
    match k
    case TerminalAnswer => 0
    case ToolCall => 1
    case ToolResult => 2
    case _ => 3
  }

  // ----- one step -----

  const HEAD_MARK := "…[truncated "
  const TAIL_MARK := " chars]…"

  /** `truncateHeadTail`. */
  function TruncateHeadTail(s: string, max: int): string {
    if max <= 0 || |s| <= max then s
    else
      var head := max * 3 / 4;
      s[..head] + HEAD_MARK + Decimal(|s| - max) + TAIL_MARK + s[|s| - (max - head)..]
  }

  /** The cap holds exactly for steps that are within it anyway. A truncated step keeps `max` of its own
      characters, but the marker comes on top, so it is over the cap, and not even shorter than before if what
      is removed is no longer than the marker. */
  lemma TruncatedLength(s: string, max: int)
    requires max > 0
    ensures |TruncateHeadTail(s, max)| <= max <==> |s| <= max
    ensures |s| <= max ==> TruncateHeadTail(s, max) == s
    ensures |s| > max ==>
              var t, mark := TruncateHeadTail(s, max), |HEAD_MARK + Decimal(|s| - max) + TAIL_MARK|;
              var head := max * 3 / 4;
              && |t| == max + mark && (|t| < |s| <==> mark < |s| - max)
              && t[..head] == s[..head] && t[|t| - (max - head)..] == s[|s| - (max - head)..]
  {
  }

  function KindName(k: Kind): string {
    match k
    case AssistantText => "assistant_text"
    case ToolCall => "tool_call"
    case ToolResult => "tool_result"
    case TerminalAnswer => "terminal_answer"
    case Other(name) => name
  }

  function FormatStep(step: TraceStep, text: string): string {
    "[" + KindName(step.kind) + (if step.name != "" then ":" + step.name else "")
        + (if step.agent != "" then "@" + step.agent else "") + "] " + text
  }

  // ----- joining -----

  /** The kept steps, in their original order. */
  function Kept(rendered: seq<string>, keep: seq<bool>): seq<string>
    requires |keep| == |rendered|
  {
    if rendered == [] then []
    else
      var n := |rendered| - 1;
      Kept(rendered[..n], keep[..n]) + if keep[n] then [rendered[n]] else []
  }

  /** `strings.Join(parts, "\n")`. */
  function Join(parts: seq<string>): string {
    if parts == [] then ""
    else if |parts| == 1 then parts[0]
    else Join(parts[..|parts| - 1]) + "\n" + parts[|parts| - 1]
  }

  function SumBytes(parts: seq<string>): nat {
    if parts == [] then 0 else SumBytes(parts[..|parts| - 1]) + ByteLen(parts[|parts| - 1])
  }

  lemma {:induction false} JoinBytes(parts: seq<string>)
    ensures ByteLen(Join(parts)) == SumBytes(parts) + if |parts| > 1 then |parts| - 1 else 0
  {
    if |parts| > 1 {
      var front := parts[..|parts| - 1];
      JoinBytes(front);
      ByteLenConcat(Join(front) + "\n", parts[|parts| - 1]);
      ByteLenConcat(Join(front), "\n");
      assert ByteLen("\n") == 1;
    } else if |parts| == 1 {
      assert parts[..0] == [];
    }
  }

  lemma KeptSoFar(rendered: seq<string>, keep: seq<bool>, i: nat)
    requires |keep| == |rendered| && i < |rendered|
    ensures Kept(rendered[..i + 1], keep[..i + 1]) == Kept(rendered[..i], keep[..i]) + if keep[i] then [rendered[i]]
        else []
  {
    assert rendered[..i + 1][..i] == rendered[..i] && keep[..i + 1][..i] == keep[..i];
  }

  function Total(rendered: seq<string>, keep: seq<bool>): nat
    requires |keep| == |rendered|
  {
    ByteLen(Join(Kept(rendered, keep)))
  }

  /** `renderedTotal` always equals the length of the joined string. */
  method RenderedTotal(rendered: seq<string>, keep: array<bool>) returns (total: nat)
    requires keep.Length == |rendered|
    ensures total == Total(rendered, keep[..])
  {
    total := 0;
    var count := 0;
    for i := 0 to |rendered|
      invariant total == SumBytes(Kept(rendered[..i], keep[..][..i])) && count == |Kept(rendered[..i], keep[..][..i])|
    {
      KeptSoFar(rendered, keep[..], i);
      ghost var k := Kept(rendered[..i], keep[..][..i]);
      assert k + [] == k;
      if keep[i] {
        total := total + ByteLen(rendered[i]);
        count := count + 1;
      }
    }
    assert rendered[..|rendered|] == rendered && keep[..][..|rendered|] == keep[..];
    JoinBytes(Kept(rendered, keep[..]));
    if count > 1 {
      total := total + count - 1;
    }
  }

  method JoinRendered(rendered: seq<string>, keep: array<bool>) returns (joined: string)
    requires keep.Length == |rendered|
    ensures joined == Join(Kept(rendered, keep[..]))
  {
    var kept: seq<string> := [];
    for i := 0 to |rendered|
      invariant kept == Kept(rendered[..i], keep[..][..i])
    {
      KeptSoFar(rendered, keep[..], i);
      if keep[i] {
        kept := kept + [rendered[i]];
      }
    }
    assert rendered[..|rendered|] == rendered && keep[..][..|rendered|] == keep[..];
    joined := Join(kept);
  }

  /** Keeping fewer steps never takes more room. */
  lemma {:induction false} FewerIsShorter(rendered: seq<string>, less: seq<bool>, more: seq<bool>)
    requires |less| == |more| == |rendered| && forall i :: 0 <= i < |less| && less[i] ==> more[i]
    ensures |Kept(rendered, less)| <= |Kept(rendered, more)|
        && SumBytes(Kept(rendered, less)) <= SumBytes(Kept(rendered, more))
    ensures Total(rendered, less) <= Total(rendered, more)
  {
    JoinBytes(Kept(rendered, less));
    JoinBytes(Kept(rendered, more));
    if rendered != [] {
      var n := |rendered| - 1;
      FewerIsShorter(rendered[..n], less[..n], more[..n]);
      var a, b := Kept(rendered[..n], less[..n]), Kept(rendered[..n], more[..n]);
      assert a + [] == a && b + [] == b;
    }
  }

  // ----- the order of dropping -----

  /** Whether step `a` is dropped before step `b`: by rank, then oldest first. */
  predicate Before(kinds: seq<Kind>, a: nat, b: nat)
    requires a < |kinds| && b < |kinds|
  {
    Rank(kinds[a]) > Rank(kinds[b]) || (Rank(kinds[a]) == Rank(kinds[b]) && a < b)
  }

  /** The steps of one rank, oldest first. */
  function Ranked(kinds: seq<Kind>, rank: nat): (s: seq<nat>)
    ensures |s| <= |kinds|
    ensures forall q :: 0 <= q < |s| ==> s[q] < |kinds| && Rank(kinds[s[q]]) == rank
    ensures forall p, q :: 0 <= p < q < |s| ==> s[p] < s[q]
    ensures forall i :: 0 <= i < |kinds| && Rank(kinds[i]) == rank ==> i in s
  {
    if kinds == [] then []
    else
      var n := |kinds| - 1;
      Ranked(kinds[..n], rank) + if Rank(kinds[n]) == rank then [n] else []
  }

  function Droppable(kinds: seq<Kind>): seq<nat> {
    Ranked(kinds, 3) + Ranked(kinds, 2) + Ranked(kinds, 1)
  }

  function Order(kinds: seq<Kind>): seq<nat> {
    Droppable(kinds) + Ranked(kinds, 0)
  }

  predicate Indices(kinds: seq<Kind>, s: seq<nat>) {
    forall p :: 0 <= p < |s| ==> s[p] < |kinds|
  }

  predicate Sorted(kinds: seq<Kind>, s: seq<nat>) {
    Indices(kinds, s) && forall p, q :: 0 <= p < q < |s| ==> Before(kinds, s[p], s[q])
  }

  lemma ConcatSorted(kinds: seq<Kind>, s: seq<nat>, t: seq<nat>)
    requires Sorted(kinds, s) && Sorted(kinds, t) && forall p, q :: 0 <= p < |s| && 0 <= q < |t| ==>
        Before(kinds, s[p], t[q])
    ensures Sorted(kinds, s + t)
  {
  }

  lemma OrderIsSorted(kinds: seq<Kind>)
    ensures Sorted(kinds, Order(kinds))
  {
    var a, b, c, d := Ranked(kinds, 3), Ranked(kinds, 2), Ranked(kinds, 1), Ranked(kinds, 0);
    ConcatSorted(kinds, a, b);
    ConcatSorted(kinds, a + b, c);
    ConcatSorted(kinds, a + b + c, d);
  }

  /** Everything but terminal answers can be dropped. */
  lemma OrderCovers(kinds: seq<Kind>, i: nat)
    requires i < |kinds|
    ensures i in Order(kinds) && (i in Droppable(kinds) <==> kinds[i] != TerminalAnswer)
  {
    var a, b, c, d := Ranked(kinds, 3), Ranked(kinds, 2), Ranked(kinds, 1), Ranked(kinds, 0);
    assert i in a || i in b || i in c || i in d;
  }

  ghost predicate SameSteps(s: seq<nat>, t: seq<nat>) {
    forall i :: i in s <==> i in t
  }

  lemma SameLast(kinds: seq<Kind>, s: seq<nat>, t: seq<nat>)
    requires Sorted(kinds, s) && Sorted(kinds, t) && SameSteps(s, t) && s != []
    ensures t != [] && s[|s| - 1] == t[|t| - 1]
  {
    assert s[|s| - 1] in t;
    var x, y := s[|s| - 1], t[|t| - 1];
    assert y in t && y in s;
    var q :| 0 <= q < |t| && t[q] == x;
    var p :| 0 <= p < |s| && s[p] == y;
  }

  lemma SomeStep(t: seq<nat>) returns (x: nat)
    ensures t != [] ==> x in t
  {
    x := if t != [] then t[0] else 0;
  }

  /** The outcome of the sort is determined by what it promises, so it does not matter how it sorts. */
  lemma {:induction false} SortIsDetermined(kinds: seq<Kind>, s: seq<nat>, t: seq<nat>)
    requires Sorted(kinds, s) && Sorted(kinds, t) && SameSteps(s, t)
    ensures s == t
    decreases |s|
  {
    if s == [] {
      var x := SomeStep(t);
    } else {
      SameLast(kinds, s, t);
      var a, b := s[..|s| - 1], t[..|t| - 1];
      forall i
        ensures i in a <==> i in b
      {
        FrontHas(kinds, s, i);
        FrontHas(kinds, t, i);
      }
      SortIsDetermined(kinds, a, b);
      assert s == a + [s[|s| - 1]] && t == b + [t[|t| - 1]];
    }
  }

  lemma FrontHas(kinds: seq<Kind>, s: seq<nat>, i: nat)
    requires Sorted(kinds, s) && s != []
    ensures i in s[..|s| - 1] <==> i in s && i != s[|s| - 1]
  {
    var n := |s| - 1;
    assert s == s[..n] + [s[n]];
    if i in s[..n] {
      var p :| 0 <= p < n && s[p] == i;
      assert Before(kinds, s[p], s[n]);
    }
  }

  /** `s` is a sort of the first `n` steps. */
  ghost predicate IsSort(kinds: seq<Kind>, n: nat, s: seq<nat>) {
    Sorted(kinds, s) && forall j :: j in s <==> 0 <= j < n
  }

  lemma Inserted(kinds: seq<Kind>, n: nat, s: seq<nat>, pos: nat, t: seq<nat>)
    requires n < |kinds| && pos <= |s| && IsSort(kinds, n, s) && t == s[..pos] + [n] + s[pos..]
    requires forall q :: 0 <= q < pos ==> Rank(kinds[s[q]]) >= Rank(kinds[n])
    requires forall q :: pos <= q < |s| ==> Rank(kinds[s[q]]) < Rank(kinds[n])
    ensures IsSort(kinds, n + 1, t)
  {
    assert forall q :: 0 <= q < |s| ==> s[q] in s;
    ConcatSorted(kinds, s[..pos], [n]);
    ConcatSorted(kinds, s[..pos] + [n], s[pos..]);
    var front, back := s[..pos], s[pos..];
    assert s == front + back;
    forall j
      ensures j in t <==> 0 <= j < n + 1
    {
      assert j in t <==> j in front || j == n || j in back;
      assert j in s <==> j in front || j in back;
    }
  }

  /** `sort.SliceStable` with the comparison by rank and age, by insertion. */
  method SortOrder(kinds: seq<Kind>) returns (order: seq<nat>)
    ensures order == Order(kinds)
  {
    order := [];
    for i := 0 to |kinds|
      invariant IsSort(kinds, i, order)
    {
      var pos := |order|;
      while pos > 0 && Rank(kinds[order[pos - 1]]) < Rank(kinds[i])
        invariant 0 <= pos <= |order|
        invariant forall q :: pos <= q < |order| ==> Rank(kinds[order[q]]) < Rank(kinds[i])
      {
        pos := pos - 1;
      }
      forall q | 0 <= q < pos
        ensures Rank(kinds[order[q]]) >= Rank(kinds[i])
      {
        assert q < pos - 1 ==> Before(kinds, order[q], order[pos - 1]);
      }
      Inserted(kinds, i, order, pos, order[..pos] + [i] + order[pos..]);
      order := order[..pos] + [i] + order[pos..];
    }
    OrderIsSort(kinds);
    assert SameSteps(order, Order(kinds));
    SortIsDetermined(kinds, order, Order(kinds));
  }

  lemma OrderIsSort(kinds: seq<Kind>)
    ensures IsSort(kinds, |kinds|, Order(kinds))
  {
    OrderIsSorted(kinds);
    forall j | 0 <= j < |kinds|
      ensures j in Order(kinds)
    {
      OrderCovers(kinds, j);
    }
  }

  // ----- dropping -----

  /** What is kept once the first `p` steps of `order` are dropped. */
  function KeepAfter(n: nat, order: seq<nat>, p: nat): seq<bool>
    requires p <= |order|
  {
    seq(n, i => i !in order[..p])
  }

  function TotalAfter(rendered: seq<string>, order: seq<nat>, p: nat): nat
    requires p <= |order|
  {
    Total(rendered, KeepAfter(|rendered|, order, p))
  }

  /** Dropping fewer than `p` steps is not enough. */
  predicate NeedsAll(rendered: seq<string>, order: seq<nat>, max: int, p: nat)
    requires p <= |order|
  {
    forall q :: 0 <= q < p ==> TotalAfter(rendered, order, q) > max
  }

  lemma NeedsOneMore(rendered: seq<string>, order: seq<nat>, max: int, p: nat)
    requires p < |order| && NeedsAll(rendered, order, max, p) && TotalAfter(rendered, order, p) > max
    ensures NeedsAll(rendered, order, max, p + 1)
  {
  }

  /** How many steps are dropped: the fewest from the start of the order that make the rest fit, or all
      `limit` that may be. */
  predicate Drops(rendered: seq<string>, order: seq<nat>, limit: nat, max: int, p: nat)
    requires limit <= |order|
  {
    p <= limit && (TotalAfter(rendered, order, p) <= max || p == limit) && NeedsAll(rendered, order, max, p)
  }

  /** Dropping more makes the trace shorter or leaves it as long, so the fewest is well defined. */
  lemma DroppingShortens(rendered: seq<string>, order: seq<nat>, p: nat, q: nat)
    requires p <= q <= |order|
    ensures TotalAfter(rendered, order, q) <= TotalAfter(rendered, order, p)
  {
    var less, more := KeepAfter(|rendered|, order, q), KeepAfter(|rendered|, order, p);
    assert order[..p] == order[..q][..p];
    FewerIsShorter(rendered, less, more);
  }

  /** The terminal answers are the steps of the order from `limit` on. */
  predicate Ends(kinds: seq<Kind>, order: seq<nat>, limit: nat) {
    Indices(kinds, order) && limit <= |order| && forall q :: 0 <= q < |order| ==>
        (kinds[order[q]] == TerminalAnswer <==> q >= limit)
  }

  lemma OrderEnds(kinds: seq<Kind>)
    ensures Ends(kinds, Order(kinds), |Droppable(kinds)|)
  {
    OrderIsSorted(kinds);
    var a, b := Droppable(kinds), Ranked(kinds, 0);
    forall q | 0 <= q < |Order(kinds)|
      ensures kinds[Order(kinds)[q]] == TerminalAnswer <==> q >= |a|
    {
      if q < |a| {
        OrderCovers(kinds, Order(kinds)[q]);
        assert a[q] in a;
      } else {
        assert Order(kinds)[q] == b[q - |a|];
      }
    }
  }

  /** The dropping loop. */
  method DropLowest(rendered: seq<string>, kinds: seq<Kind>, order: seq<nat>, ghost limit: nat, maxTotal: int,
      keep: array<bool>) returns (p: nat)
    requires |rendered| == |kinds| == keep.Length && Ends(kinds, order, limit) && forall i :: 0 <= i < keep.Length ==>
        keep[i]
    modifies keep
    ensures p <= limit && Drops(rendered, order, limit, maxTotal, p) && keep[..] == KeepAfter(|rendered|, order, p)
  {
    p := 0;
    assert keep[..] == KeepAfter(|rendered|, order, 0);
    var total := RenderedTotal(rendered, keep);
    for at := 0 to |order|
      invariant p == if at < limit then at else limit
      invariant keep[..] == KeepAfter(|rendered|, order, p) && total == TotalAfter(rendered, order, p)
      invariant NeedsAll(rendered, order, maxTotal, p)
    {
      if total <= maxTotal {
        break;
      }
      var idx := order[at];
      if kinds[idx] == TerminalAnswer {
        continue;
      }
      NeedsOneMore(rendered, order, maxTotal, p);
      keep[idx] := false;
      p := p + 1;
      total := RenderedTotal(rendered, keep);
    }
  }

  // ----- the whole rendering -----

  function Positive(n: int, default: int): int {
    if n <= 0 then default else n
  }

  function Filtered(trace: seq<TraceStep>, cfg: Config): seq<TraceStep> {
    if trace == [] then []
    else Filtered(trace[..|trace| - 1], cfg) + if cfg.filter(trace[|trace| - 1]) then [trace[|trace| - 1]] else []
  }

  function Kinds(steps: seq<TraceStep>): seq<Kind> {
    seq(|steps|, i requires 0 <= i < |steps| => steps[i].kind)
  }

  function RenderStep(step: TraceStep, cfg: Config): string {
    FormatStep(step, TruncateHeadTail(cfg.redact(step.text), Positive(cfg.maxStepChars, DEFAULT_MAX_STEP_CHARS)))
  }

  function RenderAll(steps: seq<TraceStep>, cfg: Config): seq<string> {
    seq(|steps|, i requires 0 <= i < |steps| => RenderStep(steps[i], cfg))
  }

  /** What is rendered once `p` steps are dropped. */
  function Rendering(steps: seq<TraceStep>, cfg: Config, p: nat): string
    requires p <= |Order(Kinds(steps))|
  {
    Join(Kept(RenderAll(steps, cfg), KeepAfter(|steps|, Order(Kinds(steps)), p)))
  }

  predicate DropCount(steps: seq<TraceStep>, cfg: Config, p: nat) {
    Drops(RenderAll(steps, cfg), Order(Kinds(steps)), |Droppable(Kinds(steps))|,
        Positive(cfg.maxChars, DEFAULT_MAX_CHARS), p)
  }

  method RenderTrace(trace: seq<TraceStep>, cfg: Config) returns (out: string, p: nat)
    ensures p <= |Order(Kinds(Filtered(trace, cfg)))| && DropCount(Filtered(trace, cfg), cfg, p)
    ensures out == Rendering(Filtered(trace, cfg), cfg, p)
  {
    var steps, rendered, kinds := [], [], [];
    for i := 0 to |trace|
      invariant steps == Filtered(trace[..i], cfg) && rendered == RenderAll(steps, cfg) && kinds == Kinds(steps)
    {
      assert trace[..i + 1][..i] == trace[..i];
      if cfg.filter(trace[i]) {
        var text := TruncateHeadTail(cfg.redact(trace[i].text), Positive(cfg.maxStepChars, DEFAULT_MAX_STEP_CHARS));
        steps, rendered, kinds := steps + [trace[i]], rendered + [FormatStep(trace[i], text)], kinds + [trace[i].kind];
      }
    }
    assert trace[..|trace|] == trace;
    var keep := new bool[|steps|](_ => true);
    var order := SortOrder(kinds);
    OrderEnds(kinds);
    p := DropLowest(rendered, kinds, order, |Droppable(kinds)|, Positive(cfg.maxChars, DEFAULT_MAX_CHARS), keep);
    out := JoinRendered(rendered, keep);
  }

  /** The rendering keeps every terminal answer, drops an initial segment of the order, is within the budget
      unless only terminal answers are left, and drops no more than it has to. */
  lemma RenderingIsBest(steps: seq<TraceStep>, cfg: Config, p: nat)
    requires p <= |Order(Kinds(steps))| && DropCount(steps, cfg, p)
    ensures var kinds, keep := Kinds(steps), KeepAfter(|steps|, Order(Kinds(steps)), p);
            && (forall i :: 0 <= i < |steps| && steps[i].kind == TerminalAnswer ==> keep[i])
            && (forall i, j :: 0 <= i < |steps| && 0 <= j < |steps| && !keep[i] && Before(kinds, j, i) ==> !keep[j])
            && (ByteLen(Rendering(steps, cfg, p)) <= Positive(cfg.maxChars, DEFAULT_MAX_CHARS) ||
                forall i :: 0 <= i < |steps| ==> (keep[i] <==> steps[i].kind == TerminalAnswer))
            && forall q :: 0 <= q < p ==> ByteLen(Rendering(steps, cfg, q)) > Positive(cfg.maxChars, DEFAULT_MAX_CHARS)
  {
    var kinds, order := Kinds(steps), Order(Kinds(steps));
    var keep := KeepAfter(|steps|, order, p);
    OrderEnds(kinds);
    forall i | 0 <= i < |steps|
      ensures steps[i].kind == TerminalAnswer ==> keep[i]
      ensures p == |Droppable(kinds)| && keep[i] ==> steps[i].kind == TerminalAnswer
    {
      OrderCovers(kinds, i);
      assert order[..|Droppable(kinds)|] == Droppable(kinds);
      assert !keep[i] ==> i in order[..p];
    }
    forall i, j | 0 <= i < |steps| && 0 <= j < |steps| && !keep[i] && Before(kinds, j, i)
      ensures !keep[j]
    {
      EarlierIsDropped(kinds, i, j, p);
    }
    forall q | 0 <= q < p
      ensures ByteLen(Rendering(steps, cfg, q)) > Positive(cfg.maxChars, DEFAULT_MAX_CHARS)
    {
      assert TotalAfter(RenderAll(steps, cfg), order, q) > Positive(cfg.maxChars, DEFAULT_MAX_CHARS);
    }
  }

  lemma EarlierIsDropped(kinds: seq<Kind>, i: nat, j: nat, p: nat)
    requires i < |kinds| && j < |kinds| && p <= |Order(kinds)| && i in Order(kinds)[..p] && Before(kinds, j, i)
    ensures j in Order(kinds)[..p]
  {
    var order := Order(kinds);
    OrderIsSorted(kinds);
    OrderCovers(kinds, j);
    var a :| 0 <= a < p && order[a] == i;
    var b :| 0 <= b < |order| && order[b] == j;
    assert order[..p][b] == j;
  }
}
