/** What every step of the bus keeps. */
module BusInvariant {
  import opened Wrappers
  import opened Bus

  /** The channel is still subscribed to its session. */
  predicate Registered(b: Bus, n: nat) {
    && n in b.chans
    && var c := b.chans[n];
       c.session in b.sessions && b.sessions[c.session].born == c.born
       && c.subId in b.sessions[c.session].subs && b.sessions[c.session].subs[c.subId] == n
  }

  /** A subscriber entry and its channel name each other. */
  predicate Linked(b: Bus, key: string, id: nat, n: nat)
    requires key in b.sessions
  {
    n in b.chans && b.chans[n].session == key && b.chans[n].born == b.sessions[key].born && b.chans[n].subId == id
        && !b.chans[n].done
  }

  ghost predicate LinksOk(b: Bus) {
    forall k, id :: k in b.sessions && id in b.sessions[k].subs ==> Linked(b, k, id, b.sessions[k].subs[id])
  }

  predicate SessionOk(cfg: Config, b: Bus, st: Session) {
    && st.born in b.published && st.ring == Bounded(b.published[st.born], cfg.bufferSize)
    && forall id :: id in st.subs ==> id < st.nextSubId
  }

  ghost predicate SessionsOk(cfg: Config, b: Bus) {
    && (forall k :: k in b.sessions ==> SessionOk(cfg, b, b.sessions[k]))
    && (forall k, l :: k in b.sessions && l in b.sessions && b.sessions[k].born == b.sessions[l].born ==> k == l)
    && (forall born :: born in b.published ==> born < b.births)
    && (forall n :: n in b.chans && !b.closed ==> b.chans[n].born in b.published)
    && (b.closed ==> b.sessions == map[])
  }

  /** Subscriber ids are not used twice in one session. */
  ghost predicate IdsOk(b: Bus) {
    && (forall k, n :: k in b.sessions && n in b.chans && b.chans[n].born == b.sessions[k].born ==>
          b.chans[n].session == k && b.chans[n].subId < b.sessions[k].nextSubId)
    && (forall k, n, m ::
          k in b.sessions && n in b.chans && m in b.chans && b.chans[n].born == b.chans[m].born == b.sessions[k].born
              && b.chans[n].subId == b.chans[m].subId
          ==> n == m)
  }

  /** Positions in ascending order, from `lo` on and below `hi`. */
  predicate Ascending(at: seq<nat>, lo: nat, hi: nat) {
    && (forall i :: 0 <= i < |at| ==> lo <= at[i] < hi)
    && (forall i, j :: 0 <= i < j < |at| ==> at[i] < at[j])
  }

  /** Close discipline: open channels were never closed, others exactly once, and none was sent to after. */
  predicate DisciplineOk(cfg: Config, c: Chan, open: bool) {
    && c.closes == (if open then 0 else 1) && c.marked == !open && c.lateSends == 0
    && c.cap == cfg.bufferSize + cfg.queueSize && c.received <= |c.sent| <= c.received + c.cap
    && (c.done ==> !open)
  }

  /** What a channel was sent: its replay, then live events in the order of the history. Without drops
      these are an unbroken stretch, which for an open channel reaches to the end. */
  predicate DeliveryOk(cfg: Config, c: Chan, hist: seq<Event>, open: bool) {
    && c.joined <= |hist| && Ascending(c.at, c.joined, |hist|)
    && |c.sent| == |c.replayed| + |c.at| && c.replayed <= c.sent
    && (forall i :: 0 <= i < |c.at| ==> c.sent[|c.replayed| + i] == hist[c.at[i]])
    && (c.drops == 0 ==> forall i :: 0 <= i < |c.at| ==> c.at[i] == c.joined + i)
    && (c.drops == 0 && open ==> c.joined + |c.at| == |hist|)
    && (cfg.policy.DropSubscriber? ==> c.drops == 0)
  }

  predicate ChanOk(cfg: Config, c: Chan, hist: seq<Event>, open: bool) {
    DisciplineOk(cfg, c, open) && DeliveryOk(cfg, c, hist, open)
  }

  ghost predicate ChansOk(cfg: Config, b: Bus) {
    forall n :: n in b.chans ==> ChanOk(cfg, b.chans[n], HistoryOf(b, b.chans[n].born), Registered(b, n))
  }

  /** Under `DropEvent` a subscription lives until it is given up or the bus is closed. */
  ghost predicate OwnOk(cfg: Config, b: Bus) {
    cfg.policy.DropEvent? ==> forall n :: n in b.chans && !b.chans[n].done && !b.closed ==> Registered(b, n)
  }

  ghost predicate ShapeOk(cfg: Config, b: Bus) {
    LinksOk(b) && SessionsOk(cfg, b) && IdsOk(b)
  }

  ghost predicate Inv(cfg: Config, b: Bus) {
    ShapeOk(cfg, b) && ChansOk(cfg, b) && OwnOk(cfg, b)
  }

  // ----- framing -----

  /** What never changes about a channel. */
  predicate SamePlace(c: Chan, d: Chan) {
    c.session == d.session && c.born == d.born && c.subId == d.subId
  }

  ghost predicate SamePlaces(b: Bus, t: Bus) {
    forall n :: n in t.chans ==> n in b.chans && SamePlace(b.chans[n], t.chans[n])
  }

  lemma IdsFrame(b: Bus, t: Bus)
    requires IdsOk(b) && SamePlaces(b, t)
    requires forall k :: k in t.sessions ==>
        k in b.sessions && t.sessions[k].born == b.sessions[k].born
            && t.sessions[k].nextSubId == b.sessions[k].nextSubId
    ensures IdsOk(t)
  {
  }

  predicate LinkKept(b: Bus, t: Bus, k: string, id: nat)
    requires k in t.sessions && id in t.sessions[k].subs
  {
    var n := t.sessions[k].subs[id];
    && k in b.sessions && t.sessions[k].born == b.sessions[k].born && id in b.sessions[k].subs
        && b.sessions[k].subs[id] == n
    && n in b.chans && n in t.chans && SamePlace(b.chans[n], t.chans[n]) && t.chans[n].done == b.chans[n].done
  }

  lemma LinksFrame(b: Bus, t: Bus)
    requires LinksOk(b)
    requires forall k, id :: k in t.sessions && id in t.sessions[k].subs ==> LinkKept(b, t, k, id)
    ensures LinksOk(t)
  {
    forall k, id | k in t.sessions && id in t.sessions[k].subs
      ensures Linked(t, k, id, t.sessions[k].subs[id])
    {
      assert LinkKept(b, t, k, id);
      assert Linked(b, k, id, b.sessions[k].subs[id]);
    }
  }

  /** A session that lost subscribers, or none, and is otherwise as it was. */
  predicate Thinned(s: Session, t: Session) {
    t.born == s.born && t.ring == s.ring && t.nextSubId == s.nextSubId && t.subs.Keys <= s.subs.Keys
  }

  lemma SessionsFrame(cfg: Config, b: Bus, t: Bus)
    requires SessionsOk(cfg, b) && SamePlaces(b, t) && t.published == b.published && t.births == b.births
        && t.closed == b.closed
    requires t.sessions.Keys == b.sessions.Keys && forall k :: k in t.sessions ==> Thinned(b.sessions[k], t.sessions[k])
    ensures SessionsOk(cfg, t)
  {
    forall k | k in t.sessions
      ensures SessionOk(cfg, t, t.sessions[k])
    {
      assert SessionOk(cfg, b, b.sessions[k]);
    }
  }

  // ----- creating a session -----

  lemma CreatedRegistered(cfg: Config, b: Bus, key: string, victim: Option<string>, t: Bus)
    requires LinksOk(b) && SessionsOk(cfg, b) && t == Created(cfg, b, key, victim)
    requires NeedsEviction(cfg, b, key) ==> Victim(b.sessions, victim)
    ensures forall n :: Registered(t, n) == Registered(b, n)
  {
    forall n
      ensures Registered(t, n) == Registered(b, n)
    {
      if n in b.chans && key !in b.sessions && b.chans[n].session == key {
        assert t.sessions[key].subs == map[];
      }
    }
  }

  lemma CreatedSessions(cfg: Config, b: Bus, key: string, victim: Option<string>, t: Bus)
    requires SessionsOk(cfg, b) && !b.closed && t == Created(cfg, b, key, victim)
    ensures SessionsOk(cfg, t) && key in t.sessions
  {
    forall k | k in t.sessions
      ensures SessionOk(cfg, t, t.sessions[k])
    {
      if k in b.sessions {
        assert SessionOk(cfg, b, b.sessions[k]);
      }
    }
    assert forall k :: k in b.sessions ==> SessionOk(cfg, b, b.sessions[k]);
  }

  lemma CreatedIds(cfg: Config, b: Bus, key: string, victim: Option<string>, t: Bus)
    requires IdsOk(b) && SessionsOk(cfg, b) && !b.closed && t == Created(cfg, b, key, victim)
    ensures IdsOk(t)
  {
    assert forall n :: n in b.chans ==> b.chans[n].born < b.births;
    assert forall k :: k in t.sessions ==>
        (k in b.sessions && t.sessions[k] == b.sessions[k]) || t.sessions[k].born == b.births;
    assert t.chans == b.chans;
  }

  lemma CreatedInv(cfg: Config, b: Bus, key: string, victim: Option<string>, t: Bus)
    requires Inv(cfg, b) && !b.closed && t == Created(cfg, b, key, victim)
    requires NeedsEviction(cfg, b, key) ==> Victim(b.sessions, victim)
    ensures Inv(cfg, t) && key in t.sessions && !t.closed
  {
    CreatedRegistered(cfg, b, key, victim, t);
    CreatedSessions(cfg, b, key, victim, t);
    CreatedIds(cfg, b, key, victim, t);
    CreatedChans(cfg, b, key, victim, t);
  }

  lemma CreatedChans(cfg: Config, b: Bus, key: string, victim: Option<string>, t: Bus)
    requires SessionsOk(cfg, b) && ChansOk(cfg, b) && OwnOk(cfg, b) && !b.closed && t == Created(cfg, b, key, victim)
    requires forall n :: Registered(t, n) == Registered(b, n)
    ensures ChansOk(cfg, t) && OwnOk(cfg, t)
  {
    forall n | n in t.chans
      ensures ChanOk(cfg, t.chans[n], HistoryOf(t, t.chans[n].born), Registered(t, n))
    {
      assert HistoryOf(t, t.chans[n].born) == HistoryOf(b, b.chans[n].born);
      assert ChanOk(cfg, b.chans[n], HistoryOf(b, b.chans[n].born), Registered(b, n));
    }
  }

  // ----- recording an event -----

  lemma OfferedOk(cfg: Config, c: Chan, hist: seq<Event>, e: Event)
    requires ChanOk(cfg, c, hist, true)
    ensures ChanOk(cfg, Offered(cfg.policy, c, e, |hist|), hist + [e], Stays(cfg.policy, c))
  {
  }

  /** Ring and history grow together. */
  lemma BoundedGrows(hist: seq<Event>, e: Event, size: nat)
    ensures Bounded(Bounded(hist, size) + [e], size) == Bounded(hist + [e], size)
  {
  }

  /** The subscribers of a session are the registered channels born with it. */
  lemma SubscribersAreRegistered(b: Bus, key: string, n: nat)
    requires LinksOk(b) && IdsOk(b) && key in b.sessions
    ensures n in b.sessions[key].subs.Values <==> (Registered(b, n) && b.chans[n].session == key)
  {
    if n in b.sessions[key].subs.Values {
      var id :| id in b.sessions[key].subs && b.sessions[key].subs[id] == n;
      assert Linked(b, key, id, n);
    }
  }

  /** The fate of one channel when an event is recorded. */
  lemma RecordedOffer(cfg: Config, b: Bus, e: Event, t: Bus, n: nat)
    requires LinksOk(b) && IdsOk(b) && e.session in b.sessions && t == Recorded(cfg, b, e) && n in b.chans
    ensures n in t.chans
    ensures t.chans[n] == if Registered(b, n) && b.chans[n].session == e.session
                          then Offered(cfg.policy, b.chans[n], e, |HistoryOf(b, b.sessions[e.session].born)|)
                              else b.chans[n]
  {
    SubscribersAreRegistered(b, e.session, n);
  }

  lemma RecordedRegistered(cfg: Config, b: Bus, e: Event, t: Bus, n: nat)
    requires LinksOk(b) && IdsOk(b) && e.session in b.sessions && t == Recorded(cfg, b, e) && n in b.chans
    ensures n in t.chans
    ensures Registered(t, n) == (Registered(b, n)
        && (b.chans[n].session == e.session ==> Stays(cfg.policy, b.chans[n])))
  {
    var c := b.chans[n];
    RecordedOffer(cfg, b, e, t, n);
    assert SamePlace(c, t.chans[n]);
    if c.session == e.session {
      assert t.sessions[e.session].subs == Staying(cfg.policy, b.chans, b.sessions[e.session].subs);
    } else {
      RecordedElsewhere(cfg, b, e, t, n);
    }
  }

  lemma RecordedElsewhere(cfg: Config, b: Bus, e: Event, t: Bus, n: nat)
    requires e.session in b.sessions && t == Recorded(cfg, b, e) && n in b.chans && n in t.chans
    requires SamePlace(b.chans[n], t.chans[n]) && b.chans[n].session != e.session
    ensures Registered(t, n) == Registered(b, n)
  {
    if b.chans[n].session in b.sessions {
      assert t.sessions[b.chans[n].session] == b.sessions[b.chans[n].session];
    }
  }

  lemma RecordedChan(cfg: Config, b: Bus, e: Event, t: Bus, n: nat)
    requires ShapeOk(cfg, b) && e.session in b.sessions && t == Recorded(cfg, b, e) && n in b.chans
    requires ChanOk(cfg, b.chans[n], HistoryOf(b, b.chans[n].born), Registered(b, n))
    ensures n in t.chans && ChanOk(cfg, t.chans[n], HistoryOf(t, t.chans[n].born), Registered(t, n))
  {
    var born := b.sessions[e.session].born;
    RecordedOffer(cfg, b, e, t, n);
    RecordedRegistered(cfg, b, e, t, n);
    if b.chans[n].born == born {
      if Registered(b, n) {
        OfferedOk(cfg, b.chans[n], HistoryOf(b, born), e);
      }
    }
  }

  lemma RecordedSessions(cfg: Config, b: Bus, e: Event, t: Bus)
    requires SessionsOk(cfg, b) && e.session in b.sessions && t == Recorded(cfg, b, e) && SamePlaces(b, t)
    ensures SessionsOk(cfg, t)
  {
    var key := e.session;
    assert SessionOk(cfg, b, b.sessions[key]);
    BoundedGrows(HistoryOf(b, b.sessions[key].born), e, cfg.bufferSize);
    forall k | k in t.sessions
      ensures SessionOk(cfg, t, t.sessions[k])
    {
      assert SessionOk(cfg, b, b.sessions[k]);
    }
  }

  lemma RecordedLinks(cfg: Config, b: Bus, e: Event, t: Bus)
    requires LinksOk(b) && e.session in b.sessions && t == Recorded(cfg, b, e) && SamePlaces(b, t)
    requires forall n :: n in b.chans ==> n in t.chans && t.chans[n].done == b.chans[n].done
    ensures LinksOk(t)
  {
    forall k, id | k in t.sessions && id in t.sessions[k].subs
      ensures LinkKept(b, t, k, id)
    {
      assert Linked(b, k, id, b.sessions[k].subs[id]);
    }
    LinksFrame(b, t);
  }

  lemma RecordedOne(cfg: Config, b: Bus, e: Event, t: Bus, n: nat)
    requires ShapeOk(cfg, b) && ChansOk(cfg, b) && e.session in b.sessions && t == Recorded(cfg, b, e) && n in b.chans
    ensures n in t.chans && SamePlace(b.chans[n], t.chans[n]) && t.chans[n].done == b.chans[n].done
    ensures ChanOk(cfg, t.chans[n], HistoryOf(t, t.chans[n].born), Registered(t, n))
    ensures cfg.policy.DropEvent? && Registered(b, n) ==> Registered(t, n)
  {
    assert ChanOk(cfg, b.chans[n], HistoryOf(b, b.chans[n].born), Registered(b, n));
    RecordedChan(cfg, b, e, t, n);
    RecordedOffer(cfg, b, e, t, n);
    RecordedRegistered(cfg, b, e, t, n);
  }

  lemma RecordedChans(cfg: Config, b: Bus, e: Event, t: Bus)
    requires ShapeOk(cfg, b) && ChansOk(cfg, b) && e.session in b.sessions && t == Recorded(cfg, b, e)
    ensures ChansOk(cfg, t) && SamePlaces(b, t) && forall n :: n in b.chans ==>
        n in t.chans && t.chans[n].done == b.chans[n].done
    ensures cfg.policy.DropEvent? ==> forall n :: n in b.chans && Registered(b, n) ==> Registered(t, n)
  {
    forall n | n in b.chans
      ensures n in t.chans && SamePlace(b.chans[n], t.chans[n]) && t.chans[n].done == b.chans[n].done
      ensures ChanOk(cfg, t.chans[n], HistoryOf(t, t.chans[n].born), Registered(t, n))
      ensures cfg.policy.DropEvent? && Registered(b, n) ==> Registered(t, n)
    {
      RecordedOne(cfg, b, e, t, n);
    }
    assert t.chans.Keys == b.chans.Keys;
  }

  lemma RecordedShape(cfg: Config, b: Bus, e: Event, t: Bus)
    requires ShapeOk(cfg, b) && e.session in b.sessions && t == Recorded(cfg, b, e) && SamePlaces(b, t)
    requires forall n :: n in b.chans ==> n in t.chans && t.chans[n].done == b.chans[n].done
    ensures ShapeOk(cfg, t)
  {
    RecordedSessions(cfg, b, e, t);
    RecordedLinks(cfg, b, e, t);
    IdsFrame(b, t);
  }

  lemma StillOwn(cfg: Config, b: Bus, t: Bus)
    requires OwnOk(cfg, b) && t.closed == b.closed
    requires forall n :: n in t.chans ==> n in b.chans && t.chans[n].done == b.chans[n].done
    requires cfg.policy.DropEvent? ==> forall n :: n in b.chans && Registered(b, n) ==> Registered(t, n)
    ensures OwnOk(cfg, t)
  {
  }

  lemma RecordedInv(cfg: Config, b: Bus, e: Event, t: Bus)
    requires Inv(cfg, b) && e.session in b.sessions && t == Recorded(cfg, b, e)
    ensures Inv(cfg, t)
  {
    RecordedChans(cfg, b, e, t);
    RecordedShape(cfg, b, e, t);
    StillOwn(cfg, b, t);
  }

  // ----- subscribing -----

  lemma {:induction false} NewerIsShorter(ring: seq<Event>, after: nat)
    ensures |Newer(ring, after)| <= |ring|
  {
    if ring != [] {
      NewerIsShorter(ring[..|ring| - 1], after);
    }
  }

  /** Replay fits the channel, so it never blocks under the lock. */
  lemma ReplayFits(cfg: Config, b: Bus, key: string, lastEventId: string)
    requires SessionsOk(cfg, b) && key in b.sessions
    ensures |Replay(b.sessions[key].ring, lastEventId)| <= cfg.bufferSize
  {
    var ring := b.sessions[key].ring;
    assert SessionOk(cfg, b, b.sessions[key]);
    if ParseId(lastEventId).Some? {
      NewerIsShorter(ring, ParseId(lastEventId).value);
    }
  }

  lemma JoinedSessions(cfg: Config, b: Bus, n: nat, key: string, lastEventId: string, now: int, t: Bus)
    requires SessionsOk(cfg, b) && !b.closed && key in b.sessions && n !in b.chans
    requires t == Joined(cfg, b, n, key, lastEventId, now)
    ensures SessionsOk(cfg, t)
  {
    forall k | k in t.sessions
      ensures SessionOk(cfg, t, t.sessions[k])
    {
      assert SessionOk(cfg, b, b.sessions[k]);
    }
  }

  lemma JoinedIds(cfg: Config, b: Bus, n: nat, key: string, lastEventId: string, now: int, t: Bus)
    requires IdsOk(b) && SessionsOk(cfg, b) && key in b.sessions && n !in b.chans
    requires t == Joined(cfg, b, n, key, lastEventId, now)
    ensures IdsOk(t)
  {
  }

  lemma JoinedLinks(cfg: Config, b: Bus, n: nat, key: string, lastEventId: string, now: int, t: Bus)
    requires LinksOk(b) && key in b.sessions && n !in b.chans
    requires t == Joined(cfg, b, n, key, lastEventId, now)
    ensures LinksOk(t)
  {
    forall k, id | k in t.sessions && id in t.sessions[k].subs
      ensures Linked(t, k, id, t.sessions[k].subs[id])
    {
      if k != key || id != b.sessions[key].nextSubId {
        assert Linked(b, k, id, b.sessions[k].subs[id]);
      }
    }
  }

  lemma JoinedRegistered(cfg: Config, b: Bus, n: nat, key: string, lastEventId: string, now: int, t: Bus, m: nat)
    requires ShapeOk(cfg, b) && key in b.sessions && n !in b.chans && t == Joined(cfg, b, n, key, lastEventId, now)
    ensures Registered(t, m) == (Registered(b, m) || m == n)
    ensures m in b.chans ==> t.chans[m] == b.chans[m]
    ensures ChanOk(cfg, t.chans[n], HistoryOf(t, t.chans[n].born), true)
  {
    ReplayFits(cfg, b, key, lastEventId);
  }

  lemma JoinedInv(cfg: Config, b: Bus, n: nat, key: string, lastEventId: string, now: int, t: Bus)
    requires Inv(cfg, b) && !b.closed && key in b.sessions && n !in b.chans
    requires t == Joined(cfg, b, n, key, lastEventId, now)
    ensures Inv(cfg, t) && Registered(t, n)
  {
    JoinedSessions(cfg, b, n, key, lastEventId, now, t);
    JoinedIds(cfg, b, n, key, lastEventId, now, t);
    JoinedLinks(cfg, b, n, key, lastEventId, now, t);
    forall m | m in t.chans
      ensures Registered(t, m) == (Registered(b, m) || m == n)
      ensures ChanOk(cfg, t.chans[m], HistoryOf(t, t.chans[m].born), Registered(t, m))
    {
      JoinedRegistered(cfg, b, n, key, lastEventId, now, t, m);
      if m != n {
        assert ChanOk(cfg, b.chans[m], HistoryOf(b, b.chans[m].born), Registered(b, m));
      }
    }
  }

  // ----- unsubscribing and closing -----

  /** Which channel an `unsub` closes, if any: the one now under its subscriber id. */
  function Hit(b: Bus, n: nat): Option<nat>
    requires n in b.chans
  {
    var c := b.chans[n];
    if c.done || c.session !in b.sessions || c.subId !in b.sessions[c.session].subs then None
    else Some(b.sessions[c.session].subs[c.subId])
  }

  lemma HitIsRegistered(b: Bus, n: nat)
    requires LinksOk(b) && n in b.chans
    ensures Hit(b, n).Some? ==> Registered(b, Hit(b, n).value) && b.chans[Hit(b, n).value].session == b.chans[n].session
    ensures Registered(b, n) ==> Hit(b, n) == Some(n)
  {
    var c := b.chans[n];
    if Hit(b, n).Some? {
      assert Linked(b, c.session, c.subId, Hit(b, n).value);
    }
    if Registered(b, n) {
      assert Linked(b, c.session, c.subId, n);
    }
  }

  /** What `unsub` does to one channel. */
  lemma UnsubscribedChan(b: Bus, n: nat, t: Bus, m: nat)
    requires LinksOk(b) && n in b.chans && m in b.chans && t == Unsubscribed(b, n)
    ensures t.chans.Keys == b.chans.Keys
    ensures t.chans[m] == var c := if m == n then b.chans[m].(done := true) else b.chans[m];
                          if Hit(b, n) == Some(m) then Closed(c) else c
  {
    HitIsRegistered(b, n);
  }

  /** What `unsub` does to one session. */
  lemma UnsubscribedSession(b: Bus, n: nat, t: Bus, k: string)
    requires n in b.chans && k in b.sessions && t == Unsubscribed(b, n)
        && (Hit(b, n).Some? ==> Hit(b, n).value in b.chans)
    ensures t.sessions.Keys == b.sessions.Keys
    ensures t.sessions[k] == if Hit(b, n).Some? && k == b.chans[n].session
                             then b.sessions[k].(subs := b.sessions[k].subs - {b.chans[n].subId}) else b.sessions[k]
  {
  }

  lemma UnsubscribedLinks(b: Bus, n: nat, t: Bus, k: string, id: nat)
    requires LinksOk(b) && n in b.chans && t == Unsubscribed(b, n) && k in t.sessions && id in t.sessions[k].subs
    ensures LinkKept(b, t, k, id)
  {
    HitIsRegistered(b, n);
    UnsubscribedSession(b, n, t, k);
    var m := b.sessions[k].subs[id];
    assert Linked(b, k, id, m);
    UnsubscribedChan(b, n, t, m);
  }

  lemma UnsubscribedRegistered(b: Bus, n: nat, t: Bus, m: nat)
    requires LinksOk(b) && n in b.chans && m in b.chans && t == Unsubscribed(b, n)
    ensures Registered(t, m) == (Registered(b, m) && Hit(b, n) != Some(m))
  {
    HitIsRegistered(b, n);
    UnsubscribedChan(b, n, t, m);
    if b.chans[m].session in b.sessions {
      UnsubscribedSession(b, n, t, b.chans[m].session);
    }
  }

  lemma UnsubscribedShape(cfg: Config, b: Bus, n: nat, t: Bus)
    requires ShapeOk(cfg, b) && n in b.chans && t == Unsubscribed(b, n)
    requires SamePlaces(b, t)
    ensures ShapeOk(cfg, t)
  {
    HitIsRegistered(b, n);
    forall k | k in b.sessions
      ensures t.sessions.Keys == b.sessions.Keys && Thinned(b.sessions[k], t.sessions[k])
    {
      UnsubscribedSession(b, n, t, k);
    }
    forall k, id | k in t.sessions && id in t.sessions[k].subs
      ensures LinkKept(b, t, k, id)
    {
      UnsubscribedLinks(b, n, t, k, id);
    }
    UnsubscribedFrame(b, n, t);
    LinksFrame(b, t);
    SessionsFrame(cfg, b, t);
    IdsFrame(b, t);
  }

  lemma UnsubscribedFrame(b: Bus, n: nat, t: Bus)
    requires n in b.chans && t == Unsubscribed(b, n)
    ensures t.published == b.published && t.births == b.births && t.closed == b.closed && t.peak == b.peak
        && t.sessions.Keys == b.sessions.Keys
  {
  }

  /** Closing an open channel, and giving one up. */
  lemma ClosedOk(cfg: Config, c: Chan, hist: seq<Event>)
    ensures ChanOk(cfg, c, hist, true) ==>
        ChanOk(cfg, Closed(c), hist, false) && ChanOk(cfg, Closed(c.(done := true)), hist, false)
    ensures ChanOk(cfg, c, hist, false) ==> ChanOk(cfg, c.(done := true), hist, false)
  {
  }

  lemma UnsubscribedChans(cfg: Config, b: Bus, n: nat, t: Bus)
    requires LinksOk(b) && ChansOk(cfg, b) && n in b.chans && t == Unsubscribed(b, n)
    ensures ChansOk(cfg, t) && SamePlaces(b, t)
  {
    forall m | m in b.chans
      ensures m in t.chans && t.chans.Keys == b.chans.Keys && SamePlace(b.chans[m], t.chans[m])
      ensures ChanOk(cfg, t.chans[m], HistoryOf(t, t.chans[m].born), Registered(t, m))
    {
      UnsubscribedChanOk(cfg, b, n, t, m);
    }
  }

  lemma UnsubscribedInv(cfg: Config, b: Bus, n: nat, t: Bus)
    requires Inv(cfg, b) && n in b.chans && t == Unsubscribed(b, n)
    ensures Inv(cfg, t)
  {
    UnsubscribedChans(cfg, b, n, t);
    UnsubscribedShape(cfg, b, n, t);
    UnsubscribedOwn(cfg, b, n, t);
  }

  lemma UnsubscribedChanOk(cfg: Config, b: Bus, n: nat, t: Bus, m: nat)
    requires LinksOk(b) && ChansOk(cfg, b) && n in b.chans && m in b.chans && t == Unsubscribed(b, n)
    ensures t.chans.Keys == b.chans.Keys && SamePlace(b.chans[m], t.chans[m])
    ensures m != n ==> t.chans[m].done == b.chans[m].done
    ensures m == n ==> t.chans[m].done
    ensures Registered(t, m) == (Registered(b, m) && Hit(b, n) != Some(m))
    ensures ChanOk(cfg, t.chans[m], HistoryOf(t, t.chans[m].born), Registered(t, m))
  {
    HitIsRegistered(b, n);
    UnsubscribedFrame(b, n, t);
    UnsubscribedChan(b, n, t, m);
    UnsubscribedRegistered(b, n, t, m);
    assert ChanOk(cfg, b.chans[m], HistoryOf(b, b.chans[m].born), Registered(b, m));
    ClosedOk(cfg, b.chans[m], HistoryOf(b, b.chans[m].born));
  }

  lemma UnsubscribedOwn(cfg: Config, b: Bus, n: nat, t: Bus)
    requires LinksOk(b) && OwnOk(cfg, b) && n in b.chans && t == Unsubscribed(b, n)
    ensures OwnOk(cfg, t)
  {
    HitIsRegistered(b, n);
    UnsubscribedFrame(b, n, t);
    if cfg.policy.DropEvent? {
      forall m | m in t.chans && !t.chans[m].done && !t.closed
        ensures Registered(t, m)
      {
        UnsubscribedChan(b, n, t, if m in b.chans then m else n);
        UnsubscribedRegistered(b, n, t, m);
      }
    }
  }

  lemma CloseInv(cfg: Config, b: Bus, t: Bus)
    requires Inv(cfg, b) && t == Apply(cfg, b, Close)
    ensures Inv(cfg, t)
  {
    if !b.closed {
      forall n | n in b.chans
        ensures n in t.chans && ChanOk(cfg, t.chans[n], HistoryOf(t, t.chans[n].born), Registered(t, n))
      {
        ClosedWhenRegistered(b, n);
        assert ChanOk(cfg, b.chans[n], HistoryOf(b, b.chans[n].born), Registered(b, n));
        ClosedOk(cfg, b.chans[n], HistoryOf(b, b.chans[n].born));
      }
    }
  }

  lemma ClosedWhenRegistered(b: Bus, n: nat)
    requires LinksOk(b) && n in b.chans
    ensures Registered(b, n) <==> exists k :: k in b.sessions && n in b.sessions[k].subs.Values
  {
    if k :| k in b.sessions && n in b.sessions[k].subs.Values {
      var id :| id in b.sessions[k].subs && b.sessions[k].subs[id] == n;
      assert Linked(b, k, id, n);
    }
    if Registered(b, n) {
      assert n in b.sessions[b.chans[n].session].subs.Values;
    }
  }
}
