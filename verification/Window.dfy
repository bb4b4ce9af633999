/** Budgeted windowing of a conversation: the last summary and the longest recent suffix that fits. */
module Window {
  import opened Messages

  type Counter = seq<Message> -> int

  /** Index of the last summary, or -1. */
  function LastSummary(msgs: seq<Message>): (i: int)
    ensures -1 <= i < |msgs|
    ensures i >= 0 ==> IsSummary(msgs[i])
    ensures forall j :: i < j < |msgs| ==> !IsSummary(msgs[j])
  {
    if msgs == [] then -1
    else if IsSummary(msgs[|msgs| - 1]) then |msgs| - 1
    else LastSummary(msgs[..|msgs| - 1])
  }

  method LastSummaryIndex(msgs: seq<Message>) returns (i: int)
    ensures i == LastSummary(msgs)
  {
    i := |msgs| - 1;
    while i >= 0
      invariant -1 <= i < |msgs|
      invariant LastSummary(msgs) == LastSummary(msgs[..i + 1])
    {
      if IsSummary(msgs[i]) {
        return;
      }
      assert msgs[..i + 1][..i] == msgs[..i];
      i := i - 1;
    }
  }

  /** The history from the last summary on, before any token cap. */
  function Recent(msgs: seq<Message>): seq<Message> {
    var i := LastSummary(msgs);
    if i >= 0 then msgs[i..] else msgs
  }

  /** Where trimming may start: a leading summary is always kept. */
  function First(w: seq<Message>): nat
    requires w != []
  {
    if IsSummary(w[0]) then 1 else 0
  }

  /** The window that starts its recent part at `k`. */
  function Candidate(w: seq<Message>, k: nat): seq<Message>
    requires w != [] && First(w) <= k <= |w|
  {
    w[..First(w)] + w[k..]
  }

  predicate Fits(w: seq<Message>, k: nat, count: Counter, budget: int)
    requires w != [] && First(w) <= k <= |w|
  {
    count(Candidate(w, k)) <= budget
  }

  lemma SummaryCandidate(w: seq<Message>, k: nat)
    requires w != [] && IsSummary(w[0]) && 1 <= k <= |w|
    ensures Candidate(w, k) == [w[0]] + w[k..]
  {
  }

  /** The reference: try every start from the longest window down, keeping the last message. */
  function LinearScan(w: seq<Message>, k: nat, count: Counter, budget: int): (r: nat)
    requires w != [] && First(w) <= k <= |w|
    ensures k <= r <= |w|
    ensures forall j :: k <= j < r ==> !Fits(w, j, count, budget)
    ensures Fits(w, r, count, budget) || r >= |w| - 1
    ensures r >= |w| ==> k >= |w|
    decreases |w| - k
  {
    if k >= |w| - 1 || Fits(w, k, count, budget) then k else LinearScan(w, k + 1, count, budget)
  }

  function Selected(msgs: seq<Message>, count: Counter, budget: int): seq<Message> {
    var w := Recent(msgs);
    if budget <= 0 || w == [] then w else Candidate(w, LinearScan(w, First(w), count, budget))
  }

  predicate GrowsBy(count: Counter, a: seq<Message>, b: seq<Message>, c: seq<Message>) {
    count(a + c) <= count(a + b + c)
  }

  /** Adding messages anywhere never lowers the count. */
  ghost predicate Monotone(count: Counter) {
    forall a, b, c :: GrowsBy(count, a, b, c)
  }

  lemma LaterIsSmaller(w: seq<Message>, i: nat, j: nat, count: Counter)
    requires Monotone(count)
    requires w != [] && First(w) <= i <= j <= |w|
    ensures count(Candidate(w, j)) <= count(Candidate(w, i))
  {
    assert GrowsBy(count, w[..First(w)], w[i..j], w[j..]);
    assert w[..First(w)] + w[i..j] + w[j..] == Candidate(w, i);
  }

  lemma DefaultCounterIsMonotone()
    ensures Monotone((msgs: seq<Message>) => Tokens(msgs))
  {
    var count := (msgs: seq<Message>) => Tokens(msgs);
    forall a, b, c
      ensures GrowsBy(count, a, b, c)
    {
      TokensMonotone(a, b, c);
    }
  }

  /** The number of halvings that bring `d` to zero: the binary logarithm, rounded up. */
  function Halvings(d: nat): nat {
    if d == 0 then 0 else 1 + Halvings(d / 2)
  }

  function Pow2(k: nat): nat {
    if k == 0 then 1 else 2 * Pow2(k - 1)
  }

  lemma {:induction false} HalvingsIsLogarithm(d: nat)
    requires d > 0
    ensures Pow2(Halvings(d) - 1) <= d < Pow2(Halvings(d))
  {
    if d > 1 {
      HalvingsIsLogarithm(d / 2);
    }
  }

  lemma {:induction false} HalvingsMonotone(d: nat, e: nat)
    requires d <= e
    ensures Halvings(d) <= Halvings(e)
  {
    if d > 0 {
      HalvingsMonotone(d / 2, e / 2);
    }
  }

  /** One probe at `mid` leaves at most half of `[lo, hi)`. */
  lemma ProbeHalves(lo: nat, mid: nat, hi: nat)
    requires lo < hi && mid == (lo + hi) / 2
    ensures lo <= mid < hi
    ensures Halvings(mid - lo) <= Halvings(hi - lo) - 1
    ensures Halvings(hi - (mid + 1)) <= Halvings(hi - lo) - 1
  {
    assert mid - lo == (hi - lo) / 2;
    HalvingsMonotone(hi - (mid + 1), (hi - lo) / 2);
  }

  /** A start below which nothing fits, and from which on everything does, is the one the scan finds. */
  lemma {:induction false} ScanUnique(w: seq<Message>, k: nat, lo: nat, count: Counter, budget: int)
    requires w != [] && First(w) <= k <= lo <= |w| - 1
    requires forall j :: k <= j < lo ==> !Fits(w, j, count, budget)
    requires lo == |w| - 1 || Fits(w, lo, count, budget)
    ensures LinearScan(w, k, count, budget) == lo
    decreases lo - k
  {
    if k < lo {
      ScanUnique(w, k + 1, lo, count, budget);
    }
  }

  /** What trimming finds for every counter: a start whose window fits while the next longer one does
      not, or the least window if that does not fit. */
  ghost predicate Trims(w: seq<Message>, k: nat, count: Counter, cap: int)
    requires w != []
  {
    && First(w) <= k < |w|
    && (Fits(w, k, count, cap) || k == |w| - 1)
    && (k == First(w) || !Fits(w, k - 1, count, cap) || !Fits(w, k, count, cap))
  }

  ghost predicate Trimmed(w: seq<Message>, window: seq<Message>, count: Counter, cap: int)
    requires w != []
  {
    exists k: nat :: Trims(w, k, count, cap) && window == Candidate(w, k)
  }

  /** The branch without a leading summary. */
  method TrimPlain(w: seq<Message>, count: Counter, cap: int) returns (window: seq<Message>, calls: nat)
    requires |w| > 1 && !IsSummary(w[0])
    ensures Trimmed(w, window, count, cap)
    ensures calls <= 1 + Halvings(|w| - 1)
  {
    var n := |w|;
    calls := 1;
    assert w[n - 1..] == Candidate(w, n - 1);
    if count(w[n - 1..]) > cap {
      assert Trims(w, n - 1, count, cap);
      return w[n - 1..], calls;
    }
    var lo, hi := 0, n - 1;
    while lo < hi
      invariant 0 <= lo <= hi <= n - 1
      invariant Fits(w, hi, count, cap)
      invariant lo > 0 ==> !Fits(w, lo - 1, count, cap)
      invariant calls + Halvings(hi - lo) <= 1 + Halvings(n - 1)
    {
      var mid := (lo + hi) / 2;
      ProbeHalves(lo, mid, hi);
      calls := calls + 1;
      assert w[mid..] == Candidate(w, mid);
      if count(w[mid..]) <= cap {
        hi := mid;
      } else {
        lo := mid + 1;
      }
    }
    assert w[lo..] == Candidate(w, lo);
    assert Trims(w, lo, count, cap);
    return w[lo..], calls;
  }

  /** Counts one candidate in the reused buffer, whose first place holds the summary. */
  method CountInScratch(scratch: array<Message>, w: seq<Message>, mid: nat, count: Counter) returns (tokens: int)
    requires 1 <= mid < |w| == scratch.Length && IsSummary(w[0]) && scratch[0] == w[0]
    modifies scratch
    ensures scratch[0] == w[0] && tokens == count(Candidate(w, mid))
  {
    var sz := |w| - mid;
    forall i | 0 <= i < sz {
      scratch[1 + i] := w[mid + i];
    }
    assert scratch[..1 + sz] == Candidate(w, mid);
    tokens := count(scratch[..1 + sz]);
  }

  /** The branch that keeps a leading summary, probing through one reused buffer. */
  method TrimAfterSummary(w: seq<Message>, count: Counter, cap: int) returns (window: seq<Message>, calls: nat)
    requires |w| > 2 && IsSummary(w[0])
    ensures Trimmed(w, window, count, cap)
    ensures calls <= 1 + Halvings(|w| - 1)
  {
    var n := |w|;
    var minWindow := [w[0], w[n - 1]];
    calls := 1;
    SummaryCandidate(w, n - 1);
    assert minWindow == [w[0]] + w[n - 1..];
    if count(minWindow) > cap {
      assert Trims(w, n - 1, count, cap);
      return minWindow, calls;
    }
    var scratch := new Message[n](_ => Nil);
    scratch[0] := w[0];
    HalvingsMonotone(n - 2, n - 1);
    var lo, hi := 1, n - 1;
    while lo < hi
      invariant 1 <= lo <= hi <= n - 1
      invariant scratch[0] == w[0]
      invariant Fits(w, hi, count, cap)
      invariant lo > 1 ==> !Fits(w, lo - 1, count, cap)
      invariant calls + Halvings(hi - lo) <= 1 + Halvings(n - 1)
    {
      var mid := (lo + hi) / 2;
      ProbeHalves(lo, mid, hi);
      var tokens := CountInScratch(scratch, w, mid, count);
      calls := calls + 1;
      if tokens <= cap {
        hi := mid;
      } else {
        lo := mid + 1;
      }
    }
    var result := [w[0]] + w[lo..];
    SummaryCandidate(w, lo);
    assert Trims(w, lo, count, cap);
    return result, calls;
  }

  /** A window that needs no trimming. */
  lemma WholeTrims(w: seq<Message>, count: Counter, cap: int)
    requires w != [] && First(w) < |w|
    requires Fits(w, First(w), count, cap) || First(w) == |w| - 1
    ensures Trimmed(w, w, count, cap)
  {
    assert Candidate(w, First(w)) == w && Trims(w, First(w), count, cap);
  }

  /** For a monotone counter the boundary the search finds is the start the linear scan finds. */
  lemma TrimmedIsSelected(w: seq<Message>, window: seq<Message>, count: Counter, cap: int)
    requires w != [] && Monotone(count) && Trimmed(w, window, count, cap)
    ensures window == Candidate(w, LinearScan(w, First(w), count, cap))
  {
    var k: nat :| Trims(w, k, count, cap) && window == Candidate(w, k);
    forall j | First(w) <= j < k
      ensures !Fits(w, j, count, cap)
    {
      LaterIsSmaller(w, j, k - 1, count);
      LaterIsSmaller(w, j, k, count);
    }
    ScanUnique(w, First(w), k, count, cap);
  }

  /** Everything after the budget is known to matter. */
  method TrimWindow(w: seq<Message>, count: Counter, cap: int) returns (window: seq<Message>, calls: nat)
    requires w != []
    ensures if |w| == 1 then window == w else Trimmed(w, window, count, cap)
    ensures calls <= 2 + Halvings(|w|)
  {
    var n := |w|;
    assert w[..First(w)] + w[First(w)..] == w;
    if count(w) <= cap {
      if n > 1 {
        WholeTrims(w, count, cap);
      }
      return w, 1;
    }
    if n == 1 {
      return w, 1;
    }
    HalvingsMonotone(n - 1, n);
    if !IsSummary(w[0]) {
      window, calls := TrimPlain(w, count, cap);
    } else if n == 2 {
      WholeTrims(w, count, cap);
      window, calls := w, 0;
    } else {
      window, calls := TrimAfterSummary(w, count, cap);
    }
    calls := calls + 1;
  }

  ghost predicate Windowed(msgs: seq<Message>, window: seq<Message>, count: Counter, cap: int) {
    var w := Recent(msgs);
    if cap <= 0 || |w| <= 1 then window == w else Trimmed(w, window, count, cap)
  }

  /** `SelectWindow`, counting its calls of the counter. For every counter the result is a leading
      summary and a suffix that holds the last message, within the cap unless it is the least window,
      found with at most logarithmically many counts; `WindowIsSelected` adds what a monotone counter gives. */
  method SelectWindow(msgs: seq<Message>, count: Counter, budget: int, maxWindowTokens: int)
    returns (window: seq<Message>, calls: nat)
    ensures Windowed(msgs, window, count, if budget <= 0 then maxWindowTokens else budget)
    ensures calls <= 2 + Halvings(|Recent(msgs)|)
  {
    var cap := budget;
    if budget <= 0 {
      cap := maxWindowTokens;
    }
    var startIdx := 0;
    var idx := LastSummaryIndex(msgs);
    if idx >= 0 {
      startIdx := idx;
    }
    var w := msgs[startIdx..];
    if cap <= 0 || |w| == 0 {
      return w, 0;
    }
    window, calls := TrimWindow(w, count, cap);
  }

  /** The refinement: with a monotone counter `SelectWindow` is the linear scan from the longest window down. */
  lemma WindowIsSelected(msgs: seq<Message>, window: seq<Message>, count: Counter, cap: int)
    requires Monotone(count) && Windowed(msgs, window, count, cap)
    ensures window == Selected(msgs, count, cap)
  {
    var w := Recent(msgs);
    if cap > 0 && |w| > 1 {
      TrimmedIsSelected(w, window, count, cap);
    } else if cap > 0 && |w| == 1 {
      assert Candidate(w, LinearScan(w, First(w), count, cap)) == w;
    }
  }
}
