/** Splitting a history into a head to summarise and a tail to keep. */
module Tail {
  import opened Messages
  import opened Text

  type Counter = seq<Message> -> int

  /** A turn is `[start, end)`, starting at a user message that is not a summary. */
  datatype Turn = Turn(start: nat, end: nat)

  predicate StartsTurn(m: Message) {
    m.Msg? && m.role.User? && !IsSummary(m)
  }

  /** Turn `k` is not empty, and ends at the next turn or at the end of the history. */
  predicate EndsAtNext(turns: seq<Turn>, k: nat, n: nat)
    requires k < |turns|
  {
    turns[k].start < turns[k].end <= n && turns[k].end == if k + 1 < |turns| then turns[k + 1].start else n
  }

  /** The turns are exactly the stretches from one turn-starting message to the next, up to the end. */
  ghost predicate Tile(msgs: seq<Message>, turns: seq<Turn>) {
    && (forall k :: 0 <= k < |turns| ==> EndsAtNext(turns, k, |msgs|))
    && (forall k :: 0 <= k < |turns| ==> turns[k].start < |msgs| && StartsTurn(msgs[turns[k].start]))
    && (forall i :: 0 <= i < |msgs| && StartsTurn(msgs[i]) ==> exists k :: 0 <= k < |turns| && turns[k].start == i)
  }

  function StartsBefore(msgs: seq<Message>, i: nat): seq<nat>
    requires i <= |msgs|
  {
    if i == 0 then [] else StartsBefore(msgs, i - 1) + if StartsTurn(msgs[i - 1]) then [i - 1] else []
  }

  lemma {:induction false} StartsAreExact(msgs: seq<Message>, i: nat, starts: seq<nat>)
    requires i <= |msgs| && starts == StartsBefore(msgs, i)
    ensures forall k :: 0 <= k < |starts| ==> starts[k] < i && StartsTurn(msgs[starts[k]])
    ensures forall j, k :: 0 <= j < k < |starts| ==> starts[j] < starts[k]
    ensures forall s :: 0 <= s < i && StartsTurn(msgs[s]) ==> s in starts
  {
    if i > 0 {
      StartsAreExact(msgs, i - 1, StartsBefore(msgs, i - 1));
    }
  }

  /** The turns of some starts, the first `closed` of them ended at their successor. */
  function TurnsOf(starts: seq<nat>, closed: nat, n: nat): (turns: seq<Turn>)
    ensures |turns| == |starts|
  {
    seq(|starts|, k requires 0 <= k < |starts| =>
        Turn(starts[k], if k < closed && k + 1 < |starts| then starts[k + 1] else n))
  }

  function Turns(msgs: seq<Message>): seq<Turn> {
    var starts := StartsBefore(msgs, |msgs|);
    TurnsOf(starts, |starts|, |msgs|)
  }

  lemma TurnEnds(starts: seq<nat>, n: nat, turns: seq<Turn>, k: nat)
    requires turns == TurnsOf(starts, |starts|, n) && k < |turns|
    requires (forall j :: 0 <= j < |starts| ==> starts[j] < n) && forall i, j :: 0 <= i < j < |starts| ==>
        starts[i] < starts[j]
    ensures turns[k].start == starts[k] && EndsAtNext(turns, k, n)
  {
  }

  lemma TurnsTile(msgs: seq<Message>)
    ensures Tile(msgs, Turns(msgs))
  {
    var starts, turns := StartsBefore(msgs, |msgs|), Turns(msgs);
    StartsAreExact(msgs, |msgs|, starts);
    forall k | 0 <= k < |turns|
      ensures EndsAtNext(turns, k, |msgs|) && turns[k].start == starts[k]
    {
      TurnEnds(starts, |msgs|, turns, k);
    }
    forall s | 0 <= s < |msgs| && StartsTurn(msgs[s])
      ensures exists k :: 0 <= k < |turns| && turns[k].start == s
    {
      var k :| 0 <= k < |starts| && starts[k] == s;
      assert turns[k].start == s;
    }
  }

  method SplitTurns(msgs: seq<Message>) returns (result: seq<Turn>)
    ensures result == Turns(msgs)
  {
    result := [];
    for i := 0 to |msgs|
      invariant result == TurnsOf(StartsBefore(msgs, i), 0, |msgs|)
    {
      var msg := msgs[i];
      if msg.Nil? || !msg.role.User? || IsSummary(msg) {
        continue;
      }
      result := result + [Turn(i, |msgs|)];
    }
    ghost var starts := StartsBefore(msgs, |msgs|);
    if |result| == 0 {
      return;
    }
    for i := 0 to |result| - 1
      invariant result == TurnsOf(starts, i, |msgs|)
    {
      CloseNext(starts, i, |msgs|);
      result := result[i := result[i].(end := result[i + 1].start)];
    }
    assert result == Turns(msgs);
  }

  lemma CloseNext(starts: seq<nat>, i: nat, n: nat)
    requires i + 1 < |starts|
    ensures var turns := TurnsOf(starts, i, n);
            TurnsOf(starts, i + 1, n) == turns[i := turns[i].(end := turns[i + 1].start)]
  {
  }

  /** The least start after the turn's own whose suffix fits, or -1. */
  function SplitPoint(msgs: seq<Message>, t: Turn, start: nat, budget: int, count: Counter): (r: int)
    requires t.start < start && t.end <= |msgs|
    ensures r == -1 || (start <= r < t.end && count(msgs[r..t.end]) <= budget)
    ensures forall s :: start <= s < (if r == -1 then t.end else r) ==> count(msgs[s..t.end]) > budget
    decreases t.end - start
  {
    if start >= t.end then -1
    else if count(msgs[start..t.end]) <= budget then start
    else SplitPoint(msgs, t, start + 1, budget, count)
  }

  method SplitTurn(msgs: seq<Message>, t: Turn, budget: int, count: Counter) returns (r: int)
    requires t.start < t.end <= |msgs|
    ensures r == if budget <= 0 then -1 else SplitPoint(msgs, t, t.start + 1, budget, count)
  {
    if budget <= 0 {
      return -1;
    }
    if t.end - t.start <= 1 {
      return -1;
    }
    var start := t.start + 1;
    while start < t.end
      invariant t.start < start <= t.end
      invariant SplitPoint(msgs, t, t.start + 1, budget, count) == SplitPoint(msgs, t, start, budget, count)
    {
      if count(msgs[start..t.end]) <= budget {
        return start;
      }
      start := start + 1;
    }
    return -1;
  }

  /** Walks the turns before `i`, newest first: whole turns while they fit, then a part of the next one. */
  function Keep(msgs: seq<Message>, recent: seq<Turn>, i: nat, total: int, keep: int, budget: int,
      count: Counter): (r: int)
    requires i <= |recent| && forall k :: 0 <= k < |recent| ==> EndsAtNext(recent, k, |msgs|)
    ensures keep < |msgs| ==> r < |msgs|
  {
    if i == 0 then keep
    else
      assert EndsAtNext(recent, i - 1, |msgs|);
      var t := recent[i - 1];
      var size := count(msgs[t.start..t.end]);
      if total + size <= budget then Keep(msgs, recent, i - 1, total + size, t.start, budget, count)
      else
        var split := if budget - total <= 0 then -1 else SplitPoint(msgs, t, t.start + 1, budget - total, count);
        if split >= 0 then split else keep
  }

  /** The last turns of a history, at most `tailTurns` of them. */
  ghost predicate RecentTurns(msgs: seq<Message>, tailTurns: int, recent: seq<Turn>) {
    && 0 < |recent| <= tailTurns
    && (forall k :: 0 <= k < |recent| ==> EndsAtNext(recent, k, |msgs|))
  }

  /** The last `tailTurns` turns. */
  function RecentOf(msgs: seq<Message>, tailTurns: int): seq<Turn> {
    var all := Turns(msgs);
    if tailTurns <= 0 then [] else if |all| > tailTurns then all[|all| - tailTurns..] else all
  }

  /** Where the preserved tail begins; at the end when none is kept, or all of the history would be. */
  function TailStart(msgs: seq<Message>, tailTurns: int, budget: int, count: Counter): (r: nat)
    ensures r <= |msgs| && (msgs != [] ==> r > 0)
  {
    var recent := RecentOf(msgs, tailTurns);
    if recent == [] then |msgs|
    else
      RecentOfIsRecent(msgs, tailTurns);
      var keep := Keep(msgs, recent, |recent|, 0, -1, budget, count);
      if keep <= 0 then |msgs| else keep
  }

  lemma RecentOfIsRecent(msgs: seq<Message>, tailTurns: int)
    ensures RecentOf(msgs, tailTurns) != [] ==> RecentTurns(msgs, tailTurns, RecentOf(msgs, tailTurns))
  {
    var all, recent := Turns(msgs), RecentOf(msgs, tailTurns);
    TurnsTile(msgs);
    forall k | 0 <= k < |recent|
      ensures EndsAtNext(recent, k, |msgs|)
    {
      assert EndsAtNext(all, |all| - |recent| + k, |msgs|);
    }
  }

  /** The loop over the recent turns. */
  method WalkBack(msgs: seq<Message>, recent: seq<Turn>, tailTurns: int, budget: int, count: Counter)
      returns (keep: int)
    requires RecentTurns(msgs, tailTurns, recent)
    ensures keep == Keep(msgs, recent, |recent|, 0, -1, budget, count) < |msgs|
  {
    var total := 0;
    keep := -1;
    var i := |recent|;
    while i > 0
      invariant 0 <= i <= |recent| && keep < |msgs|
      invariant Keep(msgs, recent, |recent|, 0, -1, budget, count) == Keep(msgs, recent, i, total, keep, budget, count)
    {
      assert EndsAtNext(recent, i - 1, |msgs|);
      var t := recent[i - 1];
      var size := count(msgs[t.start..t.end]);
      if total + size <= budget {
        total, keep, i := total + size, t.start, i - 1;
        continue;
      }
      var split := SplitTurn(msgs, t, budget - total, count);
      if split >= 0 {
        keep := split;
      }
      return;
    }
  }

  /** `selectTail`: the head and the index where the tail begins. */
  method SelectTail(msgs: seq<Message>, tailTurns: int, budget: int, count: Counter)
      returns (head: seq<Message>, tailStart: nat)
    ensures tailStart == TailStart(msgs, tailTurns, budget, count) && head == msgs[..tailStart]
  {
    head, tailStart := msgs, |msgs|;
    assert msgs[..|msgs|] == msgs;
    if tailTurns <= 0 {
      return;
    }
    var all := SplitTurns(msgs);
    if |all| == 0 {
      return;
    }
    var recent := all;
    if |recent| > tailTurns {
      recent := recent[|recent| - tailTurns..];
    }
    RecentOfIsRecent(msgs, tailTurns);
    var keep := WalkBack(msgs, recent, tailTurns, budget, count);
    if keep <= 0 {
      return;
    }
    head, tailStart := msgs[..keep], keep;
  }

  /** Counts of the turns from `j` on, added up. */
  function CountsFrom(msgs: seq<Message>, recent: seq<Turn>, j: nat, count: Counter): int
    requires j <= |recent| && forall k :: 0 <= k < |recent| ==> EndsAtNext(recent, k, |msgs|)
    decreases |recent| - j
  {
    if j == |recent| then 0
    else
      assert EndsAtNext(recent, j, |msgs|);
      CountsFrom(msgs, recent, j + 1, count) + count(msgs[recent[j].start..recent[j].end])
  }

  /** Where the turns from `j` on begin; -1 when there are none. */
  function StartOf(recent: seq<Turn>, j: nat): int
    requires j <= |recent|
  {
    if j < |recent| then recent[j].start else -1
  }

  lemma {:induction false} WalkReaches(msgs: seq<Message>, recent: seq<Turn>, i: nat, j: nat, budget: int,
      count: Counter)
    requires forall k :: 0 <= k < |recent| ==> EndsAtNext(recent, k, |msgs|)
    requires j <= i <= |recent| && forall k :: j <= k < |recent| ==> CountsFrom(msgs, recent, k, count) <= budget
    ensures Keep(msgs, recent, i, CountsFrom(msgs, recent, i, count), StartOf(recent, i), budget, count)
         == Keep(msgs, recent, j, CountsFrom(msgs, recent, j, count), StartOf(recent, j), budget, count)
    decreases i - j
  {
    if j < i {
      assert EndsAtNext(recent, i - 1, |msgs|) && CountsFrom(msgs, recent, i - 1, count) <= budget;
      WalkReaches(msgs, recent, i - 1, j, budget, count);
    }
  }

  /** The tail is as long as it can be: every recent turn that fits together with the newer ones, and of
      the first that does not, the longest proper part that fits the rest of the budget. */
  lemma TailIsLongest(msgs: seq<Message>, recent: seq<Turn>, j: nat, budget: int, count: Counter)
    requires forall k :: 0 <= k < |recent| ==> EndsAtNext(recent, k, |msgs|)
    requires j <= |recent| && forall k :: j <= k < |recent| ==> CountsFrom(msgs, recent, k, count) <= budget
    requires j > 0 ==> CountsFrom(msgs, recent, j - 1, count) > budget
    ensures var keep := Keep(msgs, recent, |recent|, 0, -1, budget, count);
            var room := budget - CountsFrom(msgs, recent, j, count);
            if j == 0 || room <= 0 then keep == StartOf(recent, j)
            else
              assert EndsAtNext(recent, j - 1, |msgs|);
              var t := recent[j - 1];
              || (t.start < keep < t.end && count(msgs[keep..t.end]) <= room && forall s :: t.start < s < keep ==>
                  count(msgs[s..t.end]) > room)
              || (keep == StartOf(recent, j) && forall s :: t.start < s < t.end ==> count(msgs[s..t.end]) > room)
  {
    WalkReaches(msgs, recent, |recent|, j, budget, count);
    if j > 0 {
      assert EndsAtNext(recent, j - 1, |msgs|);
    }
  }

  // ----- how large the tail can be under the default counter -----

  function Min(a: int, b: int): int {
    if a < b then a else b
  }

  lemma PieceBytes(bytes: nat)
    ensures bytes <= 4 * TokensOfBytes(bytes) + 3
    ensures bytes > 0 ==> TokensOfBytes(bytes) > 0
  {
  }

  /** What is kept weighs at most four bytes a counted token and three more per piece that is not empty, and
      such a piece counts a token at least. */
  predicate Weighs(msgs: seq<Message>, keep: nat, total: int, pieces: nat) {
    keep <= |msgs| && total >= 0 && TotalBytes(msgs[keep..]) <= 4 * total + 3 * Min(pieces, total)
  }

  lemma AddPiece(msgs: seq<Message>, start: nat, end: nat, total: int, pieces: nat)
    requires start <= end && Weighs(msgs, end, total, pieces)
    ensures Weighs(msgs, start, total + Tokens(msgs[start..end]), pieces + 1)
  {
    PieceBytes(TotalBytes(msgs[start..end]));
    TotalBytesConcat(msgs[start..end], msgs[end..]);
    assert msgs[start..end] + msgs[end..] == msgs[start..];
  }

  lemma WeighsMore(msgs: seq<Message>, keep: nat, total: int, pieces: nat, total': int, pieces': nat)
    requires Weighs(msgs, keep, total, pieces) && total <= total' && pieces <= pieces'
    ensures Weighs(msgs, keep, total', pieces')
  {
  }

  ghost predicate IsDefault(count: Counter) {
    forall m :: count(m) == Tokens(m)
  }

  /** The walk stops inside turn `t`, with `used` whole turns kept: a part of `t` may be added. */
  lemma StopBytes(msgs: seq<Message>, t: Turn, total: int, keep: int, budget: int, count: Counter, used: nat, k: int)
    requires IsDefault(count) && 0 <= total < budget && t.start < t.end && Weighs(msgs, t.end, total, used)
    requires keep >= 0 ==> keep == t.end
    requires var split := SplitPoint(msgs, t, t.start + 1, budget - total, count);
             k == if split >= 0 then split else keep
    ensures k >= 0 ==> Weighs(msgs, k, budget, used + 1)
  {
    var split := SplitPoint(msgs, t, t.start + 1, budget - total, count);
    if split >= 0 {
      AddPiece(msgs, split, t.end, total, used);
      WeighsMore(msgs, split, total + Tokens(msgs[split..t.end]), used + 1, budget, used + 1);
    } else if keep >= 0 {
      WeighsMore(msgs, keep, total, used, budget, used + 1);
    }
  }

  /** Where the walk is: nothing is kept yet, or the turns from `i` on are. */
  predicate Walking(msgs: seq<Message>, recent: seq<Turn>, i: nat, total: int, keep: int)
    requires i <= |recent|
  {
    if keep == -1 then i == |recent| && total == 0
    else i < |recent| && keep == recent[i].start && Weighs(msgs, keep, total, |recent| - i)
  }

  lemma {:induction false} KeepBytes(msgs: seq<Message>, recent: seq<Turn>, tailTurns: int, i: nat, total: int,
                                     keep: int, budget: int, count: Counter, k: int)
    requires RecentTurns(msgs, tailTurns, recent) && i <= |recent| && IsDefault(count)
    requires 0 <= total && (total <= budget || keep == -1)
    requires Walking(msgs, recent, i, total, keep)
    requires k == Keep(msgs, recent, i, total, keep, budget, count)
    ensures k >= 0 ==> Weighs(msgs, k, budget, |recent|)
    decreases i
  {
    if i > 0 {
      assert EndsAtNext(recent, i - 1, |msgs|);
      var t, used := recent[i - 1], |recent| - i;
      WholeKept(msgs, recent, i, total, keep);
      var size := count(msgs[t.start..t.end]);
      if total + size <= budget {
        AddPiece(msgs, t.start, t.end, total, used);
        KeepBytes(msgs, recent, tailTurns, i - 1, total + size, t.start, budget, count, k);
      } else if total < budget {
        StopBytes(msgs, t, total, keep, budget, count, used, k);
        if k >= 0 {
          WeighsMore(msgs, k, budget, used + 1, budget, |recent|);
        }
      } else if keep >= 0 {
        WeighsMore(msgs, keep, total, used, budget, |recent|);
      }
    } else if keep >= 0 {
      WeighsMore(msgs, keep, total, |recent|, budget, |recent|);
    }
  }

  /** What is kept so far begins where the next turn back ends. */
  lemma WholeKept(msgs: seq<Message>, recent: seq<Turn>, i: nat, total: int, keep: int)
    requires 0 < i <= |recent| && EndsAtNext(recent, i - 1, |msgs|) && Walking(msgs, recent, i, total, keep)
    ensures Weighs(msgs, recent[i - 1].end, total, |recent| - i) && (keep >= 0 ==> keep == recent[i - 1].end)
  {
    if keep == -1 {
      assert msgs[|msgs|..] == [];
    }
  }

  /** The preserved tail exceeds its budget by at most three quarters of a token per turn, and per token. */
  lemma TailBound(msgs: seq<Message>, tailTurns: int, budget: int, count: Counter)
    requires IsDefault(count) && TailStart(msgs, tailTurns, budget, count) < |msgs|
    ensures Tokens(msgs[TailStart(msgs, tailTurns, budget, count)..]) <= budget + 3 * Min(tailTurns, budget) / 4
  {
    var recent := RecentOf(msgs, tailTurns);
    RecentOfIsRecent(msgs, tailTurns);
    var keep := TailStart(msgs, tailTurns, budget, count);
    KeepBytes(msgs, recent, tailTurns, |recent|, 0, -1, budget, count, keep);
    WeighsMore(msgs, keep, budget, |recent|, budget, tailTurns);
    FewTokens(TotalBytes(msgs[keep..]), budget, Min(tailTurns, budget));
  }

  lemma FewTokens(bytes: nat, budget: nat, pieces: nat)
    requires bytes <= 4 * budget + 3 * pieces && pieces <= budget
    ensures TokensOfBytes(bytes) <= budget + 3 * pieces / 4
  {
  }

  // ----- a history that is as large as it can be -----

  function Said(role: Role, bytes: nat): (r: Message)
    ensures MessageBytes(r) == bytes && (StartsTurn(r) <==> role.User?)
  {
    AsciiBytes(bytes);
    Msg(role, seq(bytes, _ => 'x'), [], "", map[])
  }

  lemma {:induction false} AsciiBytes(n: nat)
    ensures ByteLen(seq(n, _ => 'x')) == n
  {
    if n > 0 {
      AsciiBytes(n - 1);
      assert seq(n, _ => 'x')[1..] == seq(n - 1, _ => 'x');
    }
  }

  /** After a system message, `n` turns of one message each: all but the first of seven bytes, which count one
      token, and the first so that the counts add up to the budget. */
  function Heavy(n: nat, budget: nat): (r: seq<Message>)
    requires 1 <= n <= budget
    ensures IsHeavy(r, n, budget) && EachStarts(r)
  {
    [Said(System, 0), Said(User, 4 * (budget - n + 1) + 3)] + seq(n - 1, _ => Said(User, 7))
  }

  predicate IsHeavy(msgs: seq<Message>, n: nat, budget: nat) {
    && 1 <= n <= budget && |msgs| == n + 1 && MessageBytes(msgs[1]) == 4 * (budget - n + 1) + 3
    && forall k :: 2 <= k <= n ==> MessageBytes(msgs[k]) == 7
  }

  /** Every message but the first starts a turn. */
  predicate EachStarts(msgs: seq<Message>) {
    msgs != [] && !StartsTurn(msgs[0]) && forall k :: 1 <= k < |msgs| ==> StartsTurn(msgs[k])
  }

  function OneEach(n: nat): (r: seq<Turn>)
    ensures |r| == n && forall k :: 0 <= k < n ==> r[k] == Turn(k + 1, k + 2)
  {
    seq(n, k requires 0 <= k < n => Turn(k + 1, k + 2))
  }

  lemma {:induction false} EachStart(msgs: seq<Message>, i: nat, starts: seq<nat>)
    requires 1 <= i <= |msgs| && EachStarts(msgs) && starts == StartsBefore(msgs, i)
    ensures |starts| == i - 1 && forall k :: 0 <= k < i - 1 ==> starts[k] == k + 1
  {
    if i == 1 {
      assert StartsBefore(msgs, 0) == [];
    } else {
      EachStart(msgs, i - 1, StartsBefore(msgs, i - 1));
    }
  }

  lemma EachIsTurn(msgs: seq<Message>)
    requires EachStarts(msgs)
    ensures Turns(msgs) == OneEach(|msgs| - 1)
  {
    EachStart(msgs, |msgs|, StartsBefore(msgs, |msgs|));
  }

  lemma OneMessage(m: Message)
    ensures TotalBytes([m]) == MessageBytes(m)
  {
    assert [m][..0] == [];
  }

  lemma {:induction false} LightBytes(msgs: seq<Message>)
    requires forall k :: 0 <= k < |msgs| ==> MessageBytes(msgs[k]) == 7
    ensures TotalBytes(msgs) == 7 * |msgs|
  {
    if msgs != [] {
      LightBytes(msgs[..|msgs| - 1]);
    }
  }

  lemma {:induction false} HeavyCounts(msgs: seq<Message>, n: nat, budget: nat, recent: seq<Turn>, j: nat,
      count: Counter)
    requires IsDefault(count) && IsHeavy(msgs, n, budget) && j <= n && recent == OneEach(n)
    requires forall k :: 0 <= k < n ==> EndsAtNext(recent, k, |msgs|)
    ensures CountsFrom(msgs, recent, j, count) == if j == 0 then budget else n - j
    decreases n - j
  {
    if j < n {
      HeavyCounts(msgs, n, budget, recent, j + 1, count);
      assert msgs[j + 1..j + 2] == [msgs[j + 1]];
      OneMessage(msgs[j + 1]);
    }
  }

  /** The bound is attained, whatever the configuration. */
  lemma TailBoundIsAttained(tailTurns: int, budget: int, count: Counter) returns (msgs: seq<Message>)
    requires IsDefault(count) && tailTurns >= 1 && budget >= 1
    ensures TailStart(msgs, tailTurns, budget, count) == 1 < |msgs|
    ensures Tokens(msgs[1..]) == budget + 3 * Min(tailTurns, budget) / 4
  {
    var n := Min(tailTurns, budget);
    msgs := Heavy(n, budget);
    EachIsTurn(msgs);
    RecentOfIsRecent(msgs, tailTurns);
    HeavyWalk(msgs, n, budget, RecentOf(msgs, tailTurns), count);
    HeavyBytes(msgs, n, budget);
  }

  lemma HeavyWalk(msgs: seq<Message>, n: nat, budget: nat, recent: seq<Turn>, count: Counter)
    requires IsDefault(count) && IsHeavy(msgs, n, budget) && recent == OneEach(n)
    requires forall k :: 0 <= k < n ==> EndsAtNext(recent, k, |msgs|)
    ensures Keep(msgs, recent, n, 0, -1, budget, count) == 1
  {
    forall j: nat | j <= n
      ensures CountsFrom(msgs, recent, j, count) <= budget
    {
      HeavyCounts(msgs, n, budget, recent, j, count);
    }
    HeavyCounts(msgs, n, budget, recent, n, count);
    WalkReaches(msgs, recent, n, 0, budget, count);
    KeepEnds(msgs, recent, CountsFrom(msgs, recent, 0, count), budget, count);
  }

  lemma KeepEnds(msgs: seq<Message>, recent: seq<Turn>, total: int, budget: int, count: Counter)
    requires recent != [] && forall k :: 0 <= k < |recent| ==> EndsAtNext(recent, k, |msgs|)
    ensures Keep(msgs, recent, 0, total, StartOf(recent, 0), budget, count) == recent[0].start
  {
  }

  lemma HeavyBytes(msgs: seq<Message>, n: nat, budget: nat)
    requires IsHeavy(msgs, n, budget)
    ensures TotalBytes(msgs[1..]) == 4 * budget + 3 * n
  {
    LightBytes(msgs[2..]);
    OneMessage(msgs[1]);
    TotalBytesConcat([msgs[1]], msgs[2..]);
    assert [msgs[1]] + msgs[2..] == msgs[1..];
  }

  predicate WithinBudget(msgs: seq<Message>, tailTurns: int, budget: int, count: Counter) {
    var start := TailStart(msgs, tailTurns, budget, count);
    start < |msgs| ==> Tokens(msgs[start..]) <= budget
  }

  /** A configuration keeps the tail of every history within its budget if and only if it preserves at most
      one turn or at most one token. */
  lemma WithinBudgetIff(tailTurns: int, budget: int, count: Counter)
    requires IsDefault(count)
    ensures (forall msgs :: WithinBudget(msgs, tailTurns, budget, count)) <==> tailTurns <= 1 || budget <= 1
  {
    if tailTurns <= 1 || budget <= 1 {
      forall msgs
        ensures WithinBudget(msgs, tailTurns, budget, count)
      {
        if TailStart(msgs, tailTurns, budget, count) < |msgs| {
          TailBound(msgs, tailTurns, budget, count);
        }
      }
    } else {
      var msgs := TailBoundIsAttained(tailTurns, budget, count);
      assert !WithinBudget(msgs, tailTurns, budget, count);
    }
  }
}
