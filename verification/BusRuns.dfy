/** Whole runs of the bus, in every interleaving: close discipline, bounds and isolation. */
module BusRuns {
  import opened Wrappers
  import opened Bus
  import opened BusInvariant

  // ----- every step keeps the invariant -----

  /** The invariant does not depend on the counter, the waiting calls or the peak. */
  lemma PlainInv(cfg: Config, b: Bus, t: Bus)
    requires Inv(cfg, b) && t == b.(counter := t.counter, calls := t.calls, peak := t.peak)
    ensures Inv(cfg, t)
  {
    assert forall n :: Registered(t, n) == Registered(b, n);
    assert forall k :: k in b.sessions ==> SessionOk(cfg, b, b.sessions[k]) && SessionOk(cfg, t, t.sessions[k]);
    assert SamePlaces(b, t);
    IdsFrame(b, t);
  }

  lemma ReceivedShape(cfg: Config, b: Bus, n: nat, c: Chan, t: Bus)
    requires ShapeOk(cfg, b) && n in b.chans && SamePlace(b.chans[n], c) && c.done == b.chans[n].done
        && t == b.(chans := b.chans[n := c])
    ensures ShapeOk(cfg, t)
  {
    assert SamePlaces(b, t);
    SessionsFrame(cfg, b, t);
    IdsFrame(b, t);
    forall k, id | k in t.sessions && id in t.sessions[k].subs
      ensures LinkKept(b, t, k, id)
    {
      assert Linked(b, k, id, b.sessions[k].subs[id]);
    }
    LinksFrame(b, t);
  }

  lemma ReceivedOk(cfg: Config, c: Chan, hist: seq<Event>, open: bool)
    requires ChanOk(cfg, c, hist, open) && c.received < |c.sent|
    ensures ChanOk(cfg, c.(received := c.received + 1), hist, open)
  {
  }

  lemma ReceiveInv(cfg: Config, b: Bus, n: nat, t: Bus)
    requires Inv(cfg, b) && Enabled(cfg, b, Receive(n)) && t == Apply(cfg, b, Receive(n))
    ensures Inv(cfg, t)
  {
    var c := b.chans[n].(received := b.chans[n].received + 1);
    assert ChanOk(cfg, b.chans[n], HistoryOf(b, b.chans[n].born), Registered(b, n));
    ReceivedOk(cfg, b.chans[n], HistoryOf(b, c.born), Registered(b, n));
    ReceivedInv(cfg, b, n, c, t);
  }

  lemma ReceivedInv(cfg: Config, b: Bus, n: nat, c: Chan, t: Bus)
    requires Inv(cfg, b) && n in b.chans && SamePlace(b.chans[n], c) && c.done == b.chans[n].done
        && t == b.(chans := b.chans[n := c])
    requires ChanOk(cfg, c, HistoryOf(b, c.born), Registered(b, n))
    ensures Inv(cfg, t)
  {
    ReceivedShape(cfg, b, n, c, t);
    ReceivedOwn(cfg, b, n, c, t);
  }

  lemma ReceivedOwn(cfg: Config, b: Bus, n: nat, c: Chan, t: Bus)
    requires OwnOk(cfg, b) && n in b.chans && c.done == b.chans[n].done && t == b.(chans := b.chans[n := c])
    requires forall m :: Registered(t, m) == Registered(b, m)
    ensures OwnOk(cfg, t)
  {
  }

  /** A channel handed out by a closed bus. */
  lemma RefusedInv(cfg: Config, b: Bus, step: Step, t: Bus)
    requires Inv(cfg, b) && b.closed && step.Subscribe? && step.n !in b.chans && t == Apply(cfg, b, step)
    ensures Inv(cfg, t)
  {
    assert forall m :: !Registered(t, m) && !Registered(b, m);
    forall m | m in t.chans
      ensures ChanOk(cfg, t.chans[m], HistoryOf(t, t.chans[m].born), Registered(t, m))
    {
      if m != step.n {
        assert ChanOk(cfg, b.chans[m], HistoryOf(b, b.chans[m].born), Registered(b, m));
      }
    }
  }

  lemma DeliverInv(cfg: Config, b: Bus, call: nat, victim: Option<string>, t: Bus)
    requires Inv(cfg, b) && Enabled(cfg, b, Deliver(call, victim)) && t == Apply(cfg, b, Deliver(call, victim))
    ensures Inv(cfg, t)
  {
    var e := b.calls[call];
    var taken := b.(calls := b.calls - {call});
    PlainInv(cfg, b, taken);
    if !b.closed {
      var made := Created(cfg, taken, e.session, victim);
      CreatedInv(cfg, taken, e.session, victim, made);
      RecordedInv(cfg, made, e, t);
    }
  }

  lemma PrepareInv(cfg: Config, b: Bus, call: nat, e: Event, now: int, t: Bus)
    requires Inv(cfg, b) && t == Apply(cfg, b, Prepare(call, e, now))
    ensures Inv(cfg, t)
  {
    PlainInv(cfg, b, t);
  }

  lemma UnsubscribeInv(cfg: Config, b: Bus, n: nat, t: Bus)
    requires Inv(cfg, b) && n in b.chans && t == Apply(cfg, b, Unsubscribe(n))
    ensures Inv(cfg, t)
  {
    UnsubscribedInv(cfg, b, n, t);
  }

  lemma SubscribeInv(cfg: Config, b: Bus, n: nat, key: string, lastEventId: string, now: int, victim: Option<string>,
      t: Bus)
    requires Inv(cfg, b) && Enabled(cfg, b, Subscribe(n, key, lastEventId, now, victim))
    requires t == Apply(cfg, b, Subscribe(n, key, lastEventId, now, victim))
    ensures Inv(cfg, t) && (!b.closed ==> Registered(t, n))
  {
    if b.closed {
      RefusedInv(cfg, b, Subscribe(n, key, lastEventId, now, victim), t);
    } else {
      EnterInv(cfg, b, n, key, lastEventId, now, victim, t);
    }
  }

  lemma EnterInv(cfg: Config, b: Bus, n: nat, key: string, lastEventId: string, now: int, victim: Option<string>,
      t: Bus)
    requires Inv(cfg, b) && !b.closed && n !in b.chans && (NeedsEviction(cfg, b, key) ==> Victim(b.sessions, victim))
    requires t == WithPeak(Joined(cfg, Created(cfg, b, key, victim), n, key, lastEventId, now))
    ensures Inv(cfg, t) && Registered(t, n)
  {
    var made := Created(cfg, b, key, victim);
    CreatedInv(cfg, b, key, victim, made);
    var joined := Joined(cfg, made, n, key, lastEventId, now);
    JoinedInv(cfg, made, n, key, lastEventId, now, joined);
    PlainInv(cfg, joined, t);
  }

  lemma StepInv(cfg: Config, b: Bus, step: Step, t: Bus)
    requires Inv(cfg, b) && Enabled(cfg, b, step) && t == Apply(cfg, b, step)
    ensures Inv(cfg, t)
  {
    match step
    case Prepare(call, e, now) => PrepareInv(cfg, b, call, e, now, t);
    case Deliver(call, victim) => DeliverInv(cfg, b, call, victim, t);
    case Subscribe(n, key, id, now, victim) => SubscribeInv(cfg, b, n, key, id, now, victim, t);
    case Receive(n) => ReceiveInv(cfg, b, n, t);
    case Unsubscribe(n) => UnsubscribeInv(cfg, b, n, t);
    case Close => CloseInv(cfg, b, t);
  }

  // ----- runs -----

  /** Any number of publishers, subscribers and consumers, one atomic step at a time. */
  ghost predicate Runs(cfg: Config, b: Bus, steps: seq<Step>)
    decreases |steps|
  {
    steps == [] || (Enabled(cfg, b, steps[0]) && Runs(cfg, Apply(cfg, b, steps[0]), steps[1..]))
  }

  ghost function Final(cfg: Config, b: Bus, steps: seq<Step>): Bus
    requires Runs(cfg, b, steps)
    decreases |steps|
  {
    if steps == [] then b else Final(cfg, Apply(cfg, b, steps[0]), steps[1..])
  }

  lemma {:induction false} RunInv(cfg: Config, b: Bus, steps: seq<Step>, t: Bus)
    requires Inv(cfg, b) && Runs(cfg, b, steps) && t == Final(cfg, b, steps)
    ensures Inv(cfg, t)
    decreases |steps|
  {
    if steps != [] {
      var u := Apply(cfg, b, steps[0]);
      StepInv(cfg, b, steps[0], u);
      RunInv(cfg, u, steps[1..], t);
    }
  }

  lemma EmptyInv(cfg: Config)
    ensures Inv(cfg, EMPTY)
  {
  }

  /** A reachable bus. */
  ghost predicate Reached(cfg: Config, steps: seq<Step>, b: Bus) {
    Runs(cfg, EMPTY, steps) && Final(cfg, EMPTY, steps) == b
  }

  lemma {:induction false} RunsAppend(cfg: Config, b: Bus, steps: seq<Step>, step: Step)
    requires Runs(cfg, b, steps) && Enabled(cfg, Final(cfg, b, steps), step)
    ensures Runs(cfg, b, steps + [step]) && Final(cfg, b, steps + [step]) == Apply(cfg, Final(cfg, b, steps), step)
    decreases |steps|
  {
    if steps != [] {
      RunsAppend(cfg, Apply(cfg, b, steps[0]), steps[1..], step);
      assert (steps + [step])[1..] == steps[1..] + [step];
    } else {
      assert ([] + [step])[1..] == [];
    }
  }

  lemma ReachedBy(cfg: Config, steps: seq<Step>, b: Bus, step: Step, t: Bus)
    requires Reached(cfg, steps, b) && Enabled(cfg, b, step) && t == Apply(cfg, b, step)
    ensures Reached(cfg, steps + [step], t)
  {
    RunsAppend(cfg, EMPTY, steps, step);
  }

  /** Close discipline over all interleavings: a channel is closed at most once, exactly once if it is no
      longer subscribed, never sent to after that, and no send blocks: the channel never holds more than
      its capacity, of which the replay under the lock takes at most `bufferSize`. */
  lemma CloseDiscipline(cfg: Config, steps: seq<Step>, b: Bus, n: nat)
    requires Reached(cfg, steps, b) && n in b.chans
    ensures b.chans[n].closes <= 1 && (b.chans[n].closes == 0 <==> Registered(b, n)) && b.chans[n].lateSends == 0
    ensures b.chans[n].received <= |b.chans[n].sent| <= b.chans[n].received + cfg.bufferSize + cfg.queueSize
    ensures b.closed ==> b.chans[n].closes == 1
  {
    EmptyInv(cfg);
    RunInv(cfg, EMPTY, steps, b);
    assert ChanOk(cfg, b.chans[n], HistoryOf(b, b.chans[n].born), Registered(b, n));
  }

  /** Whose channel an `unsub` closes: another's exactly when its session was evicted and made anew and
      its subscriber id is in use again; its own exactly when it is still subscribed. */
  lemma UnsubHits(cfg: Config, steps: seq<Step>, b: Bus, n: nat)
    requires Reached(cfg, steps, b) && n in b.chans
    ensures Registered(b, n) <==> Hit(b, n) == Some(n)
    ensures var c := b.chans[n];
            (Hit(b, n).Some? && Hit(b, n) != Some(n)) <==>
            (!c.done && c.session in b.sessions && b.sessions[c.session].born != c.born
                && c.subId in b.sessions[c.session].subs)
  {
    EmptyInv(cfg);
    RunInv(cfg, EMPTY, steps, b);
    HitIsRegistered(b, n);
    var c := b.chans[n];
    if c.session in b.sessions && c.subId in b.sessions[c.session].subs {
      assert Linked(b, c.session, c.subId, b.sessions[c.session].subs[c.subId]);
    }
  }

  /** Under `DropEvent`, `unsub` closes its own channel or, once it ran or the bus is closed, nothing; no
      other subscriber is touched. */
  lemma UnsubIsOwn(cfg: Config, steps: seq<Step>, b: Bus, n: nat, m: nat)
    requires cfg.policy.DropEvent? && Reached(cfg, steps, b) && n in b.chans && m in b.chans
    ensures Hit(b, n) == if b.chans[n].done || b.closed then None else Some(n)
    ensures var t := Apply(cfg, b, Unsubscribe(n));
            t.chans.Keys == b.chans.Keys && (m != n ==>
                t.chans[m] == b.chans[m] && Registered(t, m) == Registered(b, m))
  {
    EmptyInv(cfg);
    RunInv(cfg, EMPTY, steps, b);
    HitIsRegistered(b, n);
    UnsubscribedChan(b, n, Unsubscribed(b, n), m);
    UnsubscribedRegistered(b, n, Unsubscribed(b, n), m);
  }

  /** One channel, subscribed to the only session and never read. */
  predicate Unread(b: Bus, sent: nat) {
    && !b.closed && b.calls == map[] && b.sessions.Keys == {"a"} && b.sessions["a"].subs == map[0 := 0]
        && b.chans.Keys == {0}
    && var c := b.chans[0];
       c.session == "a" && c.subId == 0 && c.cap == 2 && c.received == 0 && |c.sent| == sent && !c.marked
           && c.closes == 0 && !c.done
  }

  /** The channel was closed as too slow; nobody called its `unsub`. */
  predicate Dropped(b: Bus, key: string) {
    && !b.closed && b.calls == map[] && b.sessions.Keys == {key} && b.sessions[key].subs == map[] && b.chans.Keys == {0}
    && b.chans[0].session == "a" && b.chans[0].subId == 0 && b.chans[0].closes == 1 && !b.chans[0].done
  }

  const SMALL := Config(1, 1, DropSubscriber, 1)

  function At(key: string): Event {
    Event("x", Some(0), key, "")
  }

  /** One whole `Publish` of an event that has an id and a timestamp. */
  lemma Published(steps: seq<Step>, b: Bus, key: string, victim: Option<string>) returns (more: seq<Step>, t: Bus)
    requires Reached(SMALL, steps, b) && b.calls == map[] && !b.closed
        && (NeedsEviction(SMALL, b, key) ==> Victim(b.sessions, victim))
    ensures Reached(SMALL, more, t) && t.calls == map[] && t == Recorded(SMALL, Created(SMALL, b, key, victim), At(key))
  {
    var e := At(key);
    var u := b.(calls := map[0 := e]);
    ReachedBy(SMALL, steps, b, Prepare(0, e, 0), u);
    t := Apply(SMALL, u, Deliver(0, victim));
    assert u.calls - {0} == b.calls;
    assert u.(calls := u.calls - {0}) == b;
    more := steps + [Prepare(0, e, 0)];
    ReachedBy(SMALL, more, u, Deliver(0, victim), t);
    more := more + [Deliver(0, victim)];
  }

  lemma SlowSubscriberDropped() returns (steps: seq<Step>, b: Bus)
    ensures Reached(SMALL, steps, b) && Dropped(b, "a")
  {
    b := Apply(SMALL, EMPTY, Subscribe(0, "a", "", 0, None));
    steps := [] + [Subscribe(0, "a", "", 0, None)];
    ReachedBy(SMALL, [], EMPTY, Subscribe(0, "a", "", 0, None), b);
    assert Unread(b, 0);
    for sent := 0 to 3
      invariant Reached(SMALL, steps, b) && if sent < 3 then Unread(b, sent) else Dropped(b, "a")
    {
      var before := b;
      steps, b := Published(steps, before, "a", None);
    }
  }

  lemma SessionEvicted() returns (steps: seq<Step>, b: Bus)
    ensures Reached(SMALL, steps, b) && Dropped(b, "b")
  {
    var s1, b1 := SlowSubscriberDropped();
    assert Idle(b1.sessions, "a");
    steps, b := Published(s1, b1, "b", Some("a"));
    MadeWay(b1, b);
  }

  /** What goes wrong under `DropSubscriber`: a subscriber is dropped as slow, its session is evicted and
      made anew for another subscriber, and then the late `unsub` of the first closes the second's channel. */
  lemma LateUnsub() returns (steps: seq<Step>, b: Bus)
    ensures Reached(SMALL, steps, b) && b.chans.Keys == {0, 1} && b.chans[1].closes == 0 && Hit(b, 0) == Some(1)
    ensures Apply(SMALL, b, Unsubscribe(0)).chans[1].closes == 1
  {
    var before, b1 := SessionEvicted();
    b := Apply(SMALL, b1, Subscribe(1, "a", "", 0, Some("b")));
    TakesPlace(b1, b);
    ReachedBy(SMALL, before, b1, Subscribe(1, "a", "", 0, Some("b")), b);
    steps := before + [Subscribe(1, "a", "", 0, Some("b"))];
  }

  lemma MadeWay(b: Bus, t: Bus)
    requires Dropped(b, "a") && t.calls == map[] && t == Recorded(SMALL, Created(SMALL, b, "b", Some("a")), At("b"))
    ensures Dropped(t, "b")
  {
    assert Created(SMALL, b, "b", Some("a")).sessions.Keys == {"b"};
  }

  lemma TakesPlace(b: Bus, t: Bus)
    requires Dropped(b, "b") && t == Apply(SMALL, b, Subscribe(1, "a", "", 0, Some("b")))
    ensures Enabled(SMALL, b, Subscribe(1, "a", "", 0, Some("b")))
    ensures t.chans.Keys == {0, 1} && t.chans[1].closes == 0 && Hit(t, 0) == Some(1)
        && Unsubscribed(t, 0).chans[1].closes == 1
  {
    assert Idle(b.sessions, "b");
    var made := Created(SMALL, b, "a", Some("b"));
    assert made.sessions.Keys == {"a"};
    assert t.sessions["a"].subs == map[0 := 1];
  }

  // ----- how many sessions there are -----

  function Max(a: int, b: int): int {
    if a > b then a else b
  }

  predicate SizeOk(cfg: Config, b: Bus) {
    && |Subscribed(b.sessions)| <= b.peak
    && (cfg.maxSessions > 0 ==> |b.sessions| <= Max(cfg.maxSessions, 1 + b.peak))
  }

  lemma {:induction false} SubsetIsSmaller<T>(s: set<T>, t: set<T>)
    requires s <= t
    ensures |s| <= |t|
  {
    assert t == s + (t - s);
  }

  lemma SubscribedShrinks(s: map<string, Session>, t: map<string, Session>)
    requires forall k :: k in t && t[k].subs != map[] ==> k in s && s[k].subs != map[]
    ensures |Subscribed(t)| <= |Subscribed(s)|
  {
    SubsetIsSmaller(Subscribed(t), Subscribed(s));
  }

  lemma AllSubscribed(sessions: map<string, Session>)
    requires forall k :: !Idle(sessions, k)
    ensures |Subscribed(sessions)| == |sessions|
  {
    assert forall k :: k in sessions ==> !Idle(sessions, k);
    assert Subscribed(sessions) == sessions.Keys;
  }

  lemma GrownSize(m: map<string, Session>, key: string, st: Session)
    ensures |m[key := st]| == |m| + if key in m then 0 else 1
  {
    assert m[key := st].Keys == m.Keys + {key};
  }

  lemma ShrunkSize(m: map<string, Session>, key: string)
    ensures |m - {key}| == |m| - if key in m then 1 else 0
  {
    assert (m - {key}).Keys == m.Keys - {key};
  }

  lemma CreatedSize(cfg: Config, b: Bus, key: string, victim: Option<string>, t: Bus)
    requires SizeOk(cfg, b) && t == Created(cfg, b, key, victim)
    requires NeedsEviction(cfg, b, key) ==> Victim(b.sessions, victim)
    ensures SizeOk(cfg, t) && t.peak == b.peak
  {
    SubscribedShrinks(b.sessions, t.sessions);
    if key !in b.sessions {
      var kept := if NeedsEviction(cfg, b, key) then Evicted(b.sessions, victim) else b.sessions;
      KeptSize(cfg, b, key, victim, kept);
      GrownSize(kept, key, Session(b.births, [], map[], 0, 0));
    }
  }

  /** There is room for one more session. */
  lemma KeptSize(cfg: Config, b: Bus, key: string, victim: Option<string>, kept: map<string, Session>)
    requires SizeOk(cfg, b) && key !in b.sessions && (NeedsEviction(cfg, b, key) ==> Victim(b.sessions, victim))
    requires kept == if NeedsEviction(cfg, b, key) then Evicted(b.sessions, victim) else b.sessions
    ensures key !in kept && (cfg.maxSessions > 0 ==> |kept| < Max(cfg.maxSessions, 1 + b.peak))
  {
    if NeedsEviction(cfg, b, key) {
      if victim.None? {
        AllSubscribed(b.sessions);
      } else {
        ShrunkSize(b.sessions, victim.value);
      }
    }
  }

  lemma RecordedSize(cfg: Config, b: Bus, e: Event, t: Bus)
    requires SizeOk(cfg, b) && e.session in b.sessions && t == Recorded(cfg, b, e)
    ensures SizeOk(cfg, t) && t.peak == b.peak
  {
    assert t.sessions.Keys == b.sessions.Keys;
    SubscribedShrinks(b.sessions, t.sessions);
  }

  lemma UnsubscribedSize(cfg: Config, b: Bus, n: nat, t: Bus)
    requires LinksOk(b) && SizeOk(cfg, b) && n in b.chans && t == Unsubscribed(b, n)
    ensures SizeOk(cfg, t) && t.peak == b.peak
  {
    UnsubscribedFrame(b, n, t);
    HitIsRegistered(b, n);
    forall k | k in b.sessions
      ensures k in t.sessions && t.sessions[k].subs.Keys <= b.sessions[k].subs.Keys
    {
      UnsubscribedSession(b, n, t, k);
    }
    SubscribedShrinks(b.sessions, t.sessions);
  }

  lemma JoinedSize(cfg: Config, b: Bus, n: nat, key: string, lastEventId: string, now: int, t: Bus)
    requires SizeOk(cfg, b) && key in b.sessions && t == WithPeak(Joined(cfg, b, n, key, lastEventId, now))
    ensures SizeOk(cfg, t) && (t.peak == b.peak || t.peak == |Subscribed(t.sessions)|)
  {
    assert t.sessions.Keys == b.sessions.Keys;
  }

  lemma StepSize(cfg: Config, b: Bus, step: Step, t: Bus)
    requires Inv(cfg, b) && SizeOk(cfg, b) && Enabled(cfg, b, step) && t == Apply(cfg, b, step)
    ensures SizeOk(cfg, t)
    ensures t.peak == b.peak || t.peak == |Subscribed(t.sessions)|
  {
    match step
    case Deliver(call, victim) => DeliverSize(cfg, b, call, victim, t);
    case Subscribe(n, key, id, now, victim) => SubscribeSize(cfg, b, n, key, id, now, victim, t);
    case Unsubscribe(n) => UnsubscribedSize(cfg, b, n, t);
    case _ => OtherSize(cfg, b, step, t);
  }

  lemma DeliverSize(cfg: Config, b: Bus, call: nat, victim: Option<string>, t: Bus)
    requires SizeOk(cfg, b) && Enabled(cfg, b, Deliver(call, victim)) && t == Apply(cfg, b, Deliver(call, victim))
    ensures SizeOk(cfg, t) && t.peak == b.peak
  {
    if !b.closed {
      var taken := b.(calls := b.calls - {call});
      var made := Created(cfg, taken, b.calls[call].session, victim);
      CreatedSize(cfg, taken, b.calls[call].session, victim, made);
      RecordedSize(cfg, made, b.calls[call], t);
    }
  }

  lemma SubscribeSize(cfg: Config, b: Bus, n: nat, key: string, id: string, now: int, victim: Option<string>, t: Bus)
    requires SizeOk(cfg, b) && Enabled(cfg, b, Subscribe(n, key, id, now, victim))
        && t == Apply(cfg, b, Subscribe(n, key, id, now, victim))
    ensures SizeOk(cfg, t) && (t.peak == b.peak || t.peak == |Subscribed(t.sessions)|)
  {
    if !b.closed {
      var made := Created(cfg, b, key, victim);
      CreatedSize(cfg, b, key, victim, made);
      JoinedSize(cfg, made, n, key, id, now, t);
    }
  }

  lemma OtherSize(cfg: Config, b: Bus, step: Step, t: Bus)
    requires SizeOk(cfg, b) && (step.Prepare? || step.Receive? || step.Close?) && Enabled(cfg, b, step)
        && t == Apply(cfg, b, step)
    ensures SizeOk(cfg, t) && t.peak == b.peak
  {
    SubscribedShrinks(b.sessions, t.sessions);
  }

  lemma {:induction false} RunsPrefix(cfg: Config, b: Bus, steps: seq<Step>, i: nat)
    requires Runs(cfg, b, steps) && i <= |steps|
    ensures Runs(cfg, b, steps[..i])
    ensures i < |steps| ==>
              Enabled(cfg, Final(cfg, b, steps[..i]), steps[i]) && steps[..i] + [steps[i]] == steps[..i + 1]
    decreases |steps|
  {
    if i > 0 {
      RunsPrefix(cfg, Apply(cfg, b, steps[0]), steps[1..], i - 1);
      assert steps[..i][1..] == steps[1..][..i - 1];
    }
  }

  /** How many sessions had subscribers at once after the first `i` steps. */
  ghost function SubscribedAt(cfg: Config, steps: seq<Step>, i: nat): nat
    requires Runs(cfg, EMPTY, steps) && i <= |steps|
  {
    RunsPrefix(cfg, EMPTY, steps, i);
    |Subscribed(Final(cfg, EMPTY, steps[..i]).sessions)|
  }

  lemma {:induction false} PeakIsAttained(cfg: Config, steps: seq<Step>, n: nat, b: Bus) returns (at: nat)
    requires Runs(cfg, EMPTY, steps) && n <= |steps| && Runs(cfg, EMPTY, steps[..n])
        && b == Final(cfg, EMPTY, steps[..n])
    ensures Inv(cfg, b) && SizeOk(cfg, b) && at <= n && SubscribedAt(cfg, steps, at) == b.peak
  {
    if n == 0 {
      EmptyInv(cfg);
      assert steps[..0] == [];
      return 0;
    }
    RunsPrefix(cfg, EMPTY, steps, n - 1);
    var before := Final(cfg, EMPTY, steps[..n - 1]);
    at := PeakIsAttained(cfg, steps, n - 1, before);
    RunsAppend(cfg, EMPTY, steps[..n - 1], steps[n - 1]);
    StepInv(cfg, before, steps[n - 1], b);
    StepSize(cfg, before, steps[n - 1], b);
    if b.peak != before.peak {
      at := n;
    }
  }

  /** Over all runs, the number of retained sessions never exceeds `maxSessions`, or one more than the most
      sessions that were ever subscribed to at the same time. */
  lemma SessionsAreBounded(cfg: Config, steps: seq<Step>, b: Bus) returns (at: nat)
    requires Reached(cfg, steps, b) && cfg.maxSessions > 0
    ensures at <= |steps| && |b.sessions| <= Max(cfg.maxSessions, 1 + SubscribedAt(cfg, steps, at))
  {
    assert steps[..|steps|] == steps;
    at := PeakIsAttained(cfg, steps, |steps|, b);
  }
}
