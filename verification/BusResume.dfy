/** Reconnecting with the last event id: when a client misses nothing. */
module BusResume {
  import opened Wrappers
  import opened Text
  import opened Bus
  import opened BusInvariant
  import opened BusRuns

  // ----- what replay selects -----

  predicate IsNewer(e: Event, lastEventId: string) {
    var after, n := ParseId(lastEventId), ParseId(e.id);
    after.Some? && n.Some? && n.value > after.value
  }

  lemma {:induction false} NewerSplits(a: seq<Event>, b: seq<Event>, after: nat)
    ensures Newer(a + b, after) == Newer(a, after) + Newer(b, after)
  {
    if b == [] {
      assert a + b == a;
    } else {
      var front := b[..|b| - 1];
      assert (a + b)[..|a + b| - 1] == a + front;
      NewerSplits(a, front, after);
      assert (a + b)[|a + b| - 1] == b[|b| - 1];
    }
  }

  lemma SameFront<T>(a: seq<T>, b: seq<T>, x: T)
    ensures a + [x] == b + [x] <==> a == b
  {
    if a + [x] == b + [x] {
      assert a == (a + [x])[..|a|] && b == (b + [x])[..|b|];
    }
  }

  predicate AllNewer(ring: seq<Event>, id: string) {
    forall i :: 0 <= i < |ring| ==> IsNewer(ring[i], id)
  }

  predicate NoneNewer(ring: seq<Event>, id: string) {
    forall i :: 0 <= i < |ring| ==> !IsNewer(ring[i], id)
  }

  lemma LastNewer(ring: seq<Event>, id: string)
    requires ring != []
    ensures var front, last := ring[..|ring| - 1], ring[|ring| - 1];
            && ring == front + [last]
            && (AllNewer(ring, id) <==> AllNewer(front, id) && IsNewer(last, id))
            && (NoneNewer(ring, id) <==> NoneNewer(front, id) && !IsNewer(last, id))
            && Replay(ring, id) == Replay(front, id) + if IsNewer(last, id) then [last] else []
  {
    var front, last := ring[..|ring| - 1], ring[|ring| - 1];
    assert ring == front + [last];
  }

  lemma {:induction false} NewerBounds(ring: seq<Event>, id: string)
    ensures |Replay(ring, id)| <= |ring|
    ensures Replay(ring, id) == ring <==> AllNewer(ring, id)
    ensures Replay(ring, id) == [] <==> NoneNewer(ring, id)
  {
    if ring != [] {
      var front, last := ring[..|ring| - 1], ring[|ring| - 1];
      NewerBounds(front, id);
      LastNewer(ring, id);
      SameFront(Replay(front, id), front, last);
    }
  }

  /** The events after position `j` are still buffered, and of the buffered events exactly these have
      larger ids than the one at `j - 1`. */
  predicate Resumable(cfg: Config, hist: seq<Event>, j: nat)
    requires 0 < j <= |hist|
  {
    && |hist| - j <= cfg.bufferSize
    && forall i :: 0 <= i < |hist| && |hist| - cfg.bufferSize <= i ==> (IsNewer(hist[i], hist[j - 1].id) <==> i >= j)
  }

  /** Replay is exactly the rest of the history if and only if the position is resumable. */
  lemma ReplayIsRest(cfg: Config, hist: seq<Event>, j: nat)
    requires 0 < j <= |hist|
    ensures Replay(Bounded(hist, cfg.bufferSize), hist[j - 1].id) == hist[j..] <==> Resumable(cfg, hist, j)
  {
    var id, ring := hist[j - 1].id, Bounded(hist, cfg.bufferSize);
    if |hist| - j <= cfg.bufferSize {
      var m := |hist| - |ring|;
      assert ring == hist[m..j] + hist[j..|hist|] && hist[j..|hist|] == hist[j..];
      SplitReplay(hist[m..j], hist[j..|hist|], id);
    } else {
      NewerBounds(ring, id);
    }
  }

  lemma ReplaySplits(a: seq<Event>, b: seq<Event>, id: string)
    ensures Replay(a + b, id) == Replay(a, id) + Replay(b, id)
  {
    if ParseId(id).Some? {
      NewerSplits(a, b, ParseId(id).value);
    }
  }

  lemma SplitReplay(a: seq<Event>, b: seq<Event>, id: string)
    ensures Replay(a + b, id) == b <==> NoneNewer(a, id) && AllNewer(b, id)
  {
    ReplaySplits(a, b, id);
    NewerBounds(a, id);
    NewerBounds(b, id);
    if Replay(a + b, id) == b {
      WholeIsSecond(Replay(a, id), Replay(b, id), b, a, id);
    } else if Replay(a, id) == [] {
      assert [] + Replay(b, id) == Replay(b, id);
    }
  }

  /** If the newer events of `a` and of `b` together make up `b`, none is from `a`. */
  lemma WholeIsSecond(x: seq<Event>, y: seq<Event>, b: seq<Event>, a: seq<Event>, id: string)
    requires x + y == b && x == Replay(a, id) && y == Replay(b, id)
    ensures x == [] && y == b
  {
    ReplayIsNewer(a, id);
    ReplayIsNewer(b, id);
    NewerBounds(b, id);
    forall i | 0 <= i < |b|
      ensures IsNewer(b[i], id)
    {
      assert b[i] == if i < |x| then x[i] else y[i - |x|];
    }
  }

  lemma {:induction false} ReplayIsNewer(ring: seq<Event>, id: string)
    ensures AllNewer(Replay(ring, id), id)
  {
    if ring != [] && ParseId(id).Some? {
      var front := ring[..|ring| - 1];
      ReplayIsNewer(front, id);
      var r := Replay(ring, id);
      assert r == Replay(front, id) + if IsNewer(ring[|ring| - 1], id) then [ring[|ring| - 1]] else [];
      forall i | 0 <= i < |r|
        ensures IsNewer(r[i], id)
      {
        assert i < |Replay(front, id)| ==> r[i] == Replay(front, id)[i];
      }
    }
  }

  // ----- what later steps leave alone -----

  predicate SameReplay(c: Chan, d: Chan) {
    SamePlace(c, d) && d.replayed == c.replayed && d.joined == c.joined
  }

  ghost predicate HistoriesGrow(b: Bus, t: Bus) {
    forall born :: HistoryOf(b, born) <= HistoryOf(t, born)
  }

  lemma RecordedKeeps(cfg: Config, b: Bus, e: Event, t: Bus, n: nat)
    requires e.session in b.sessions && t == Recorded(cfg, b, e)
    ensures HistoriesGrow(b, t)
    ensures n in b.chans ==> n in t.chans && SameReplay(b.chans[n], t.chans[n])
  {
  }

  lemma DeliverKeeps(cfg: Config, b: Bus, call: nat, victim: Option<string>, t: Bus, n: nat)
    requires SessionsOk(cfg, b) && call in b.calls && t == Apply(cfg, b, Deliver(call, victim)) && n in b.chans
    ensures n in t.chans && SameReplay(b.chans[n], t.chans[n]) && HistoriesGrow(b, t)
  {
    if !b.closed {
      var e := b.calls[call];
      var taken := b.(calls := b.calls - {call});
      assert taken.births !in taken.published;
      var made := Created(cfg, taken, e.session, victim);
      assert made.chans == b.chans && HistoriesGrow(b, made);
      RecordedKeeps(cfg, made, e, t, n);
      forall born
        ensures HistoryOf(b, born) <= HistoryOf(t, born)
      {
        assert HistoryOf(b, born) <= HistoryOf(made, born) <= HistoryOf(t, born);
      }
    }
  }

  lemma SubscribeKeeps(cfg: Config, b: Bus, step: Step, t: Bus, n: nat)
    requires SessionsOk(cfg, b) && step.Subscribe? && step.n !in b.chans && t == Apply(cfg, b, step) && n in b.chans
    ensures n in t.chans && SameReplay(b.chans[n], t.chans[n]) && HistoriesGrow(b, t)
  {
    if !b.closed {
      var made := Created(cfg, b, step.session, step.victim);
      assert t.published == made.published;
    }
  }

  /** No step changes a channel's place and replay, or takes back history. */
  lemma StepKeeps(cfg: Config, b: Bus, step: Step, t: Bus, n: nat)
    requires LinksOk(b) && SessionsOk(cfg, b) && Enabled(cfg, b, step) && t == Apply(cfg, b, step) && n in b.chans
    ensures n in t.chans && SameReplay(b.chans[n], t.chans[n]) && HistoriesGrow(b, t)
  {
    match step
    case Deliver(call, victim) => DeliverKeeps(cfg, b, call, victim, t, n);
    case Subscribe(_, _, _, _, _) => SubscribeKeeps(cfg, b, step, t, n);
    case Unsubscribe(m) => UnsubscribeKeeps(b, m, t, n);
    case _ => OtherKeeps(cfg, b, step, t, n);
  }

  lemma UnsubscribeKeeps(b: Bus, m: nat, t: Bus, n: nat)
    requires LinksOk(b) && m in b.chans && t == Unsubscribed(b, m) && n in b.chans
    ensures n in t.chans && SameReplay(b.chans[n], t.chans[n]) && HistoriesGrow(b, t)
  {
    UnsubscribedFrame(b, m, t);
    UnsubscribedChan(b, m, t, n);
  }

  lemma OtherKeeps(cfg: Config, b: Bus, step: Step, t: Bus, n: nat)
    requires (step.Prepare? || step.Receive? || step.Close?) && Enabled(cfg, b, step) && t == Apply(cfg, b, step)
        && n in b.chans
    ensures n in t.chans && SameReplay(b.chans[n], t.chans[n]) && HistoriesGrow(b, t)
  {
  }

  lemma {:induction false} RunKeeps(cfg: Config, b: Bus, steps: seq<Step>, t: Bus, n: nat)
    requires Inv(cfg, b) && Runs(cfg, b, steps) && t == Final(cfg, b, steps) && n in b.chans
    ensures n in t.chans && SameReplay(b.chans[n], t.chans[n]) && HistoriesGrow(b, t)
    decreases |steps|
  {
    if steps != [] {
      var u := Apply(cfg, b, steps[0]);
      StepKeeps(cfg, b, steps[0], u, n);
      StepInv(cfg, b, steps[0], u);
      RunKeeps(cfg, u, steps[1..], t, n);
      forall born
        ensures HistoryOf(b, born) <= HistoryOf(t, born)
      {
        assert HistoryOf(b, born) <= HistoryOf(u, born) <= HistoryOf(t, born);
      }
    }
  }

  // ----- delivery and resumption -----

  /** What a subscriber is sent: under `DropSubscriber`, and whenever nothing was dropped, its replay
      followed by one unbroken stretch of the history, up to the end while it is subscribed; otherwise
      live events are a subsequence of the history, in order and without repetition. */
  lemma Deliveries(cfg: Config, steps: seq<Step>, b: Bus, n: nat)
    requires Reached(cfg, steps, b) && n in b.chans
    ensures var c, hist := b.chans[n], HistoryOf(b, b.chans[n].born);
            && (cfg.policy.DropSubscriber? ==> c.drops == 0)
            && Ascending(c.at, c.joined, |hist|) && |c.sent| == |c.replayed| + |c.at|
            && (forall i :: 0 <= i < |c.at| ==> c.sent[|c.replayed| + i] == hist[c.at[i]])
            && (c.drops == 0 ==>
                  c.joined + |c.at| <= |hist| && c.sent == c.replayed + hist[c.joined..c.joined + |c.at|])
            && (c.drops == 0 && c.closes == 0 ==> c.sent == c.replayed + hist[c.joined..])
  {
    EmptyInv(cfg);
    RunInv(cfg, EMPTY, steps, b);
    assert ChanOk(cfg, b.chans[n], HistoryOf(b, b.chans[n].born), Registered(b, n));
    DeliveriesOf(cfg, b.chans[n], HistoryOf(b, b.chans[n].born), Registered(b, n));
  }

  lemma DeliveriesOf(cfg: Config, c: Chan, hist: seq<Event>, open: bool)
    requires ChanOk(cfg, c, hist, open)
    ensures (open <==> c.closes == 0) && DeliveryOk(cfg, c, hist, open)
    ensures c.drops == 0 ==> c.joined + |c.at| <= |hist| && c.sent == c.replayed + hist[c.joined..c.joined + |c.at|]
    ensures c.drops == 0 && open ==> c.sent == c.replayed + hist[c.joined..]
  {
    if c.drops == 0 {
      Stretch(c, hist);
    }
  }

  lemma Stretch(c: Chan, hist: seq<Event>)
    requires |c.sent| == |c.replayed| + |c.at| && c.replayed <= c.sent && c.joined <= |hist|
    requires forall i :: 0 <= i < |c.at| ==>
        c.at[i] < |hist| && c.sent[|c.replayed| + i] == hist[c.at[i]] && c.at[i] == c.joined + i
    ensures c.joined + |c.at| <= |hist| && c.sent == c.replayed + hist[c.joined..c.joined + |c.at|]
  {
    if |c.at| > 0 {
      assert c.at[|c.at| - 1] == c.joined + |c.at| - 1;
    }
    var live := c.sent[|c.replayed|..];
    assert c.sent == c.replayed + live;
    assert forall i :: 0 <= i < |live| ==> live[i] == c.sent[|c.replayed| + i] && c.at[i] == c.joined + i;
    assert live == hist[c.joined..c.joined + |c.at|];
  }

  /** The step by which a client that has events up to position `j` of a session comes back. */
  ghost function Return(b: Bus, n: nat, key: string, j: nat, now: int): Step
    requires key in b.sessions && 0 < j <= |HistoryOf(b, b.sessions[key].born)|
  {
    Subscribe(n, key, HistoryOf(b, b.sessions[key].born)[j - 1].id, now, None)
  }

  lemma Returned(cfg: Config, b: Bus, n: nat, key: string, j: nat, now: int, u: Bus, hist: seq<Event>)
    requires Inv(cfg, b) && !b.closed && key in b.sessions && n !in b.chans
    requires hist == HistoryOf(b, b.sessions[key].born) && 0 < j <= |hist|
        && u == Apply(cfg, b, Return(b, n, key, j, now))
    ensures Inv(cfg, u) && n in u.chans && u.chans[n].born == b.sessions[key].born
    ensures u.chans[n].joined == |hist| && HistoryOf(u, u.chans[n].born) == hist
    ensures u.chans[n].replayed == Replay(Bounded(hist, cfg.bufferSize), hist[j - 1].id)
  {
    StepInv(cfg, b, Return(b, n, key, j, now), u);
    assert SessionOk(cfg, b, b.sessions[key]);
  }

  /** A client that had `hist[i..j]` of a history that is `later` by now, and came back on channel `c`: while
      subscribed it has exactly the history from `i` on if and only if the position was resumable, and if
      so, it has no gap at any moment, subscribed or not. */
  predicate ResumesIff(cfg: Config, hist: seq<Event>, later: seq<Event>, c: Chan, i: nat, j: nat) {
    && i < j <= |hist| && i <= |later|
    && (c.closes == 0 ==> (hist[i..j] + c.sent == later[i..] <==> Resumable(cfg, hist, j)))
    && (Resumable(cfg, hist, j) ==> j + |c.sent| <= |later| && hist[i..j] + c.sent == later[i..j + |c.sent|])
  }

  /** The channel has sent its replay and an unbroken stretch of the history after it, all while subscribed. */
  predicate HasSent(c: Chan, now: seq<Event>) {
    && c.joined + |c.at| <= |now|
    && c.sent == c.replayed + now[c.joined..c.joined + |c.at|]
    && (c.closes == 0 ==> c.sent == c.replayed + now[c.joined..])
  }

  /** What the channel of a client that came back has been sent, at any later moment. */
  lemma SentSince(cfg: Config, u: Bus, n: nat, after: seq<Step>, t: Bus, c: Chan, now: seq<Event>)
    requires Inv(cfg, u) && n in u.chans && Runs(cfg, u, after) && t == Final(cfg, u, after)
    requires n in t.chans && c == t.chans[n] && c.drops == 0 && now == HistoryOf(t, u.chans[n].born)
    ensures SameReplay(u.chans[n], c) && HistoryOf(u, c.born) <= now && HasSent(c, now)
  {
    RunInv(cfg, u, after, t);
    RunKeeps(cfg, u, after, t, n);
    assert ChanOk(cfg, c, now, Registered(t, n));
    DeliveriesOf(cfg, c, now, Registered(t, n));
  }

  lemma ResumeFrom(cfg: Config, hist: seq<Event>, u: Bus, n: nat, i: nat, j: nat, after: seq<Step>, t: Bus, c: Chan,
      now: seq<Event>)
    requires Inv(cfg, u) && n in u.chans && i < j <= |hist| && u.chans[n].joined == |hist|
        && HistoryOf(u, u.chans[n].born) == hist
    requires u.chans[n].replayed == Replay(Bounded(hist, cfg.bufferSize), hist[j - 1].id)
    requires Runs(cfg, u, after) && t == Final(cfg, u, after)
    requires n in t.chans && c == t.chans[n] && c.drops == 0 && now == HistoryOf(t, u.chans[n].born)
    ensures ResumesIff(cfg, hist, now, c, i, j)
  {
    SentSince(cfg, u, n, after, t, c, now);
    Recovered(cfg, hist, now, c, i, j);
  }

  /** The same about one channel: `hist` when the client came back, `now` later. */
  lemma Recovered(cfg: Config, hist: seq<Event>, now: seq<Event>, c: Chan, i: nat, j: nat)
    requires i < j <= |hist| && hist <= now && c.joined == |hist| && HasSent(c, now)
    requires c.replayed == Replay(Bounded(hist, cfg.bufferSize), hist[j - 1].id)
    ensures ResumesIff(cfg, hist, now, c, i, j)
  {
    ReplayIsRest(cfg, hist, j);
    Pieces(hist, now, c, i, j);
  }

  /** Resumption, over all runs: for a client that has the events of a session from `i` up to `j` and comes
      back while the session is retained, as long as nothing is dropped as slow. */
  lemma Resume(cfg: Config, before: seq<Step>, b: Bus, n: nat, key: string, i: nat, j: nat, now: int, u: Bus,
      after: seq<Step>, t: Bus, hist: seq<Event>, later: seq<Event>)
    requires Reached(cfg, before, b) && !b.closed && key in b.sessions && n !in b.chans
    requires hist == HistoryOf(b, b.sessions[key].born) && i < j <= |hist|
        && u == Apply(cfg, b, Return(b, n, key, j, now))
    requires Runs(cfg, u, after) && t == Final(cfg, u, after) && later == HistoryOf(t, b.sessions[key].born)
    requires n in t.chans && t.chans[n].drops == 0
    ensures ResumesIff(cfg, hist, later, t.chans[n], i, j)
  {
    ReachedInv(cfg, before, b);
    Returned(cfg, b, n, key, j, now, u, hist);
    ResumeFrom(cfg, hist, u, n, i, j, after, t, t.chans[n], later);
  }

  lemma ReachedInv(cfg: Config, steps: seq<Step>, b: Bus)
    requires Reached(cfg, steps, b)
    ensures Inv(cfg, b)
  {
    EmptyInv(cfg);
    RunInv(cfg, EMPTY, steps, b);
  }

  lemma Pieces(hist: seq<Event>, hist2: seq<Event>, c: Chan, i: nat, j: nat)
    requires i < j <= |hist| && hist <= hist2 && c.joined == |hist| && |hist| + |c.at| <= |hist2|
    requires c.sent == c.replayed + hist2[|hist|..|hist| + |c.at|]
    ensures c.sent == c.replayed + hist2[|hist|..] ==> (hist[i..j] + c.sent == hist2[i..] <==> c.replayed == hist[j..])
    ensures c.replayed == hist[j..] ==> j + |c.sent| <= |hist2| && hist[i..j] + c.sent == hist2[i..j + |c.sent|]
  {
    var live := hist2[|hist|..|hist| + |c.at|];
    assert hist2[i..] == hist[i..j] + (hist[j..] + hist2[|hist|..]);
    if c.sent == c.replayed + hist2[|hist|..] && hist[i..j] + c.sent == hist2[i..] {
      SameTail(hist[i..j], c.replayed + hist2[|hist|..], hist[j..] + hist2[|hist|..]);
      assert |c.replayed| == |hist[j..]|;
      assert c.replayed == (c.replayed + hist2[|hist|..])[..|c.replayed|] == hist[j..];
    }
    if c.replayed == hist[j..] {
      assert hist[i..j] + (hist[j..] + live) == hist2[i..j + |c.sent|];
    }
  }

  lemma SameTail(a: seq<Event>, x: seq<Event>, y: seq<Event>)
    requires a + x == a + y
    ensures x == y
  {
    assert x == (a + x)[|a|..] && y == (a + y)[|a|..];
  }

  // ----- ids in lock order -----

  /** Every event has a larger number than those before it. */
  ghost predicate Increasing(hist: seq<Event>) {
    forall i, j :: 0 <= i < j < |hist| ==> IsNewer(hist[j], hist[i].id)
  }

  /** With increasing ids only the size of the buffer matters. */
  lemma IncreasingIsResumable(cfg: Config, hist: seq<Event>, j: nat)
    requires 0 < j <= |hist| && Increasing(hist)
    ensures Resumable(cfg, hist, j) <==> |hist| - j <= cfg.bufferSize
  {
    forall i | 0 <= i < |hist|
      ensures IsNewer(hist[i], hist[j - 1].id) <==> i >= j
    {
      assert i < j - 1 ==> IsNewer(hist[j - 1], hist[i].id);
    }
  }

  predicate Numbered(e: Event, limit: nat) {
    ParseId(e.id).Some? && ParseId(e.id).value <= limit
  }

  ghost predicate NumberedUpTo(hist: seq<Event>, limit: nat) {
    Increasing(hist) && forall i :: 0 <= i < |hist| ==> Numbered(hist[i], limit)
  }

  ghost predicate InOrder(b: Bus) {
    forall born :: NumberedUpTo(HistoryOf(b, born), b.counter)
  }

  /** `Publish` calls that run one after the other and leave the id to the bus, between any other steps. */
  predicate Serial(steps: seq<Step>)
    decreases |steps|
  {
    if steps == [] then true
    else if steps[0].Prepare? then
      |steps| >= 2 && steps[1].Deliver? && steps[1].call == steps[0].call && steps[0].event.id == ""
          && Serial(steps[2..])
    else !steps[0].Deliver? && Serial(steps[1..])
  }

  lemma OtherStepInOrder(cfg: Config, b: Bus, step: Step, t: Bus)
    requires InOrder(b) && Enabled(cfg, b, step) && !step.Prepare? && !step.Deliver? && SessionsOk(cfg, b)
        && t == Apply(cfg, b, step)
    ensures InOrder(t) && t.counter == b.counter
  {
    forall born
      ensures HistoryOf(t, born) == HistoryOf(b, born)
    {
      assert step.Subscribe? && !b.closed ==>
          HistoryOf(Created(cfg, b, step.session, step.victim), born) == HistoryOf(b, born);
    }
  }

  lemma PublishInOrder(cfg: Config, b: Bus, call: nat, e: Event, now: int, victim: Option<string>, u: Bus, t: Bus)
    requires InOrder(b) && b.counter < MAX_UINT64 && e.id == "" && SessionsOk(cfg, b)
    requires u == Apply(cfg, b, Prepare(call, e, now)) && t == Apply(cfg, u, Deliver(call, victim))
    ensures InOrder(t) && t.counter == b.counter + 1
  {
    IdRoundTrip(b.counter + 1);
    var f := Prepared(b, e, now);
    assert u.calls[call] == f;
    forall born
      ensures NumberedUpTo(HistoryOf(t, born), t.counter)
    {
      var hist := HistoryOf(b, born);
      assert NumberedUpTo(hist, b.counter);
      assert HistoryOf(t, born) == hist || HistoryOf(t, born) == hist + [f];
      NumberedGrows(hist, f, b.counter);
    }
  }

  lemma NumberedGrows(hist: seq<Event>, e: Event, limit: nat)
    requires NumberedUpTo(hist, limit) && ParseId(e.id) == Some(limit + 1)
    ensures NumberedUpTo(hist, limit + 1) && NumberedUpTo(hist + [e], limit + 1)
  {
    assert forall i :: 0 <= i < |hist| ==> Numbered(hist[i], limit);
  }

  /** When publishing is serial, ids are in lock order. */
  lemma {:induction false} SerialIsInOrder(cfg: Config, b: Bus, steps: seq<Step>, t: Bus)
    requires Inv(cfg, b) && InOrder(b) && Runs(cfg, b, steps) && Serial(steps) && t == Final(cfg, b, steps)
        && b.counter + |steps| <= MAX_UINT64
    ensures InOrder(t)
    decreases |steps|
  {
    if steps != [] {
      var u := Apply(cfg, b, steps[0]);
      StepInv(cfg, b, steps[0], u);
      if steps[0].Prepare? {
        var v := Apply(cfg, u, steps[1]);
        StepInv(cfg, u, steps[1], v);
        PublishInOrder(cfg, b, steps[0].call, steps[0].event, steps[0].now, steps[1].victim, u, v);
        assert steps[1..][1..] == steps[2..];
        SerialIsInOrder(cfg, v, steps[2..], t);
      } else {
        OtherStepInOrder(cfg, b, steps[0], u);
        SerialIsInOrder(cfg, u, steps[1..], t);
      }
    }
  }

  /** With serial publishing a client resumes without gap or repetition if and only if at most
      `bufferSize` events were published since. */
  lemma SerialResume(cfg: Config, before: seq<Step>, b: Bus, n: nat, key: string, i: nat, j: nat, now: int, u: Bus,
      after: seq<Step>, t: Bus, hist: seq<Event>, later: seq<Event>)
    requires Reached(cfg, before, b) && Serial(before) && |before| <= MAX_UINT64
    requires !b.closed && key in b.sessions && n !in b.chans
    requires hist == HistoryOf(b, b.sessions[key].born) && i < j <= |hist|
        && u == Apply(cfg, b, Return(b, n, key, j, now))
    requires Runs(cfg, u, after) && t == Final(cfg, u, after) && later == HistoryOf(t, b.sessions[key].born)
    requires n in t.chans && t.chans[n].drops == 0 && t.chans[n].closes == 0
    ensures i <= |later| && (hist[i..j] + t.chans[n].sent == later[i..] <==> |hist| - j <= cfg.bufferSize)
  {
    EmptyInv(cfg);
    SerialIsInOrder(cfg, EMPTY, before, b);
    assert NumberedUpTo(hist, b.counter);
    IncreasingIsResumable(cfg, hist, j);
    Resume(cfg, before, b, n, key, i, j, now, u, after, t, hist, later);
  }

  // ----- what goes wrong otherwise -----

  /** Ids are drawn before the lock is taken. Two calls can deliver in the other order, and a client that
      comes back after the event with the larger id never gets the other one, whatever the buffer. */
  lemma IdsOutOfOrder(cfg: Config) returns (steps: seq<Step>, b: Bus)
    ensures Reached(cfg, steps, b) && !b.closed && "s" in b.sessions
    ensures var hist := HistoryOf(b, b.sessions["s"].born); |hist| == 2 && !Resumable(cfg, hist, 1)
  {
    var e := Event("", Some(0), "s", "");
    var e1, e2 := e.(id := NextId(1)), e.(id := NextId(2));
    var steps2, b2 := TwoPrepared(cfg, e);
    var b3 := FirstDelivery(cfg, b2, 1, e2);
    ReachedBy(cfg, steps2, b2, Deliver(1, None), b3);
    b := SecondDelivery(cfg, b3, 0, e1);
    steps := steps2 + [Deliver(1, None)];
    ReachedBy(cfg, steps, b3, Deliver(0, None), b);
    steps := steps + [Deliver(0, None)];
    Swapped(cfg, HistoryOf(b, 0), e1, e2);
  }

  lemma Swapped(cfg: Config, hist: seq<Event>, e1: Event, e2: Event)
    requires hist == [e2] + [e1] && e1.id == NextId(1) && e2.id == NextId(2)
    ensures |hist| == 2 && !Resumable(cfg, hist, 1)
  {
    IdRoundTrip(1);
    IdRoundTrip(2);
    assert hist[1] == e1 && !IsNewer(e1, e2.id);
  }

  lemma TwoPrepared(cfg: Config, e: Event) returns (steps: seq<Step>, b: Bus)
    requires e.id == "" && e.timestamp.Some?
    ensures Reached(cfg, steps, b)
        && b == Bus(2, map[0 := e.(id := NextId(1)), 1 := e.(id := NextId(2))], false, map[], map[], map[], 0, 0)
  {
    var b1 := Apply(cfg, EMPTY, Prepare(0, e, 0));
    b := Apply(cfg, b1, Prepare(1, e, 0));
    ReachedBy(cfg, [], EMPTY, Prepare(0, e, 0), b1);
    steps := [] + [Prepare(0, e, 0)];
    ReachedBy(cfg, steps, b1, Prepare(1, e, 0), b);
    steps := steps + [Prepare(1, e, 0)];
  }

  lemma FirstDelivery(cfg: Config, b: Bus, call: nat, e: Event) returns (t: Bus)
    requires b.sessions == map[] && b.chans == map[] && b.births == 0 && b.published == map[] && !b.closed
        && call in b.calls && b.calls[call] == e
    ensures Enabled(cfg, b, Deliver(call, None)) && t == Apply(cfg, b, Deliver(call, None))
    ensures t.sessions.Keys == {e.session} && t.sessions[e.session].born == 0 && t.sessions[e.session].subs == map[]
    ensures HistoryOf(t, 0) == [e] && !t.closed && t.calls == b.calls - {call}
  {
    t := Apply(cfg, b, Deliver(call, None));
  }

  lemma SecondDelivery(cfg: Config, b: Bus, call: nat, e: Event) returns (t: Bus)
    requires e.session in b.sessions && b.sessions[e.session].subs == map[] && !b.closed && call in b.calls
        && b.calls[call] == e
    ensures Enabled(cfg, b, Deliver(call, None)) && t == Apply(cfg, b, Deliver(call, None))
    ensures t.sessions.Keys == b.sessions.Keys && t.sessions[e.session].born == b.sessions[e.session].born && !t.closed
    ensures HistoryOf(t, b.sessions[e.session].born) == HistoryOf(b, b.sessions[e.session].born) + [e]
  {
    t := Apply(cfg, b, Deliver(call, None));
  }
}
