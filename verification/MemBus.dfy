/** The in-memory bus as an object updated in place. Each method is one critical section. */
module MemBus {
  import opened Wrappers
  import opened Bus
  import opened BusInvariant
  import BusRuns

  class MemBus {
    const cfg: Config
    var counter: nat
    var closed: bool
    var sessions: map<string, Session>
    var chans: map<nat, Chan>
    // What the proofs remember about the past.
    var calls: map<nat, Event>
    var published: map<nat, seq<Event>>
    var births: nat
    var peak: nat

    ghost function State(): Bus
      reads this
    {
      Bus(counter, calls, closed, sessions, chans, published, births, peak)
    }

    ghost predicate Valid()
      reads this
    {
      Inv(cfg, State())
    }

    constructor (config: Config)
      ensures cfg == config && State() == EMPTY && Valid()
    {
      cfg := config;
      counter, closed, sessions, chans := 0, false, map[], map[];
      calls, published, births, peak := map[], map[], 0, 0;
    }

    /** Drops the longest idle session, whatever the order of the scan. */
    method EvictIdle() returns (victim: Option<string>)
      modifies `sessions
      ensures Victim(old(sessions), victim) && sessions == Evicted(old(sessions), victim)
    {
      victim := None;
      var oldest := 0;
      var todo := sessions.Keys;
      while todo != {}
        invariant todo <= sessions.Keys && sessions == old(sessions)
        invariant victim.None? ==> forall k :: k in sessions && k !in todo ==> !Idle(sessions, k)
        invariant victim.Some? ==> Idle(sessions, victim.value) && oldest == sessions[victim.value].lastActive
        invariant victim.Some? ==> forall k :: k !in todo && Idle(sessions, k) ==> oldest <= sessions[k].lastActive
        decreases |todo|
      {
        var k :| k in todo;
        todo := todo - {k};
        if sessions[k].subs == map[] && (victim.None? || sessions[k].lastActive < oldest) {
          victim, oldest := Some(k), sessions[k].lastActive;
        }
      }
      if victim.Some? {
        sessions := sessions - {victim.value};
      }
    }

    method GetOrCreate(key: string) returns (victim: Option<string>)
      modifies this
      ensures NeedsEviction(cfg, old(State()), key) ==> Victim(old(sessions), victim)
      ensures State() == Created(cfg, old(State()), key, victim)
    {
      victim := None;
      if key !in sessions {
        if cfg.maxSessions > 0 && |sessions| >= cfg.maxSessions {
          victim := EvictIdle();
        }
        sessions := sessions[key := Session(births, [], map[], 0, 0)];
        published, births := published[births := []], births + 1;
      }
    }

    method RemoveSub(key: string, id: nat)
      requires key in sessions
      modifies `sessions, `chans
      ensures State() == Removed(old(State()), key, id)
    {
      var st := sessions[key];
      if id in st.subs && st.subs[id] in chans {
        var c := chans[st.subs[id]];
        if !c.marked {
          chans := chans[st.subs[id] := c.(marked := true, closes := c.closes + 1)];
        } else {
          chans := chans[st.subs[id] := c];
        }
        sessions := sessions[key := st.(subs := st.subs - {id})];
      }
    }

    /** `RemoveSub` of a subscriber that is there. */
    method Evict(key: string, id: nat)
      requires key in sessions && id in sessions[key].subs && sessions[key].subs[id] in chans
      modifies `sessions, `chans
      ensures sessions == old(sessions)[key := old(sessions)[key].(subs := old(sessions)[key].subs - {id})]
      ensures var n := old(sessions)[key].subs[id]; chans == old(chans)[n := Closed(old(chans)[n])]
    {
      RemoveSub(key, id);
    }

    /** The non-blocking send to one subscriber, whose channel is open. */
    method Offer(key: string, id: nat, e: Event, pos: nat)
      requires key in sessions && id in sessions[key].subs && sessions[key].subs[id] in chans
      requires chans[sessions[key].subs[id]].closes == 0 && !chans[sessions[key].subs[id]].marked
      modifies `sessions, `chans
      ensures var st, n := old(sessions)[key], old(sessions)[key].subs[id];
              && chans == old(chans)[n := Offered(cfg.policy, old(chans)[n], e, pos)]
              && sessions == old(sessions)[key := if Stays(cfg.policy, old(chans)[n]) then st
                  else st.(subs := st.subs - {id})]
    {
      var n := sessions[key].subs[id];
      var c := chans[n];
      if HasRoom(c) {
        chans := chans[n := c.(sent := c.sent + [e], at := c.at + [pos])];
      } else if cfg.policy.DropSubscriber? {
        Evict(key, id);
      } else {
        chans := chans[n := c.(drops := c.drops + 1)];
      }
    }

    /** Offers an event to every subscriber of a session, in any order. */
    method FanOut(key: string, e: Event, pos: nat)
      requires key in sessions && OpenSubs(sessions[key].subs, chans)
      modifies `sessions, `chans
      ensures chans == FannedOut(cfg.policy, old(chans), old(sessions)[key].subs, e, pos)
      ensures sessions == old(sessions)[key :=
          old(sessions)[key].(subs := Staying(cfg.policy, old(chans), old(sessions)[key].subs))]
    {
      var st := sessions[key];
      var subs := st.subs;
      var todo := subs.Keys;
      ghost var was, before := sessions, chans;
      assert Left(subs, todo, before) == subs;
      assert was[key := st] == was;
      while todo != {}
        invariant todo <= subs.Keys && OfferedTo(subs, todo, before, chans, e, pos)
        invariant sessions == was[key := st.(subs := Left(subs, todo, before))]
        decreases |todo|
      {
        var id :| id in todo;
        OfferStep(subs, todo, id, before, chans, e, pos);
        Offer(key, id, e, pos);
        LeftStep(subs, todo, id, before);
        UpdatedTwice(was, key, st.(subs := Left(subs, todo, before)), st.(subs := Left(subs, todo - {id}, before)));
        todo := todo - {id};
      }
      AllOffered(subs, before, chans, e, pos);
    }

    /** Distinct, open channels. */
    ghost predicate OpenSubs(subs: map<nat, nat>, all: map<nat, Chan>) {
      && (forall id :: id in subs ==> subs[id] in all && all[subs[id]].closes == 0 && !all[subs[id]].marked)
      && (forall i, j :: i in subs && j in subs && subs[i] == subs[j] ==> i == j)
    }

    lemma AllOffered(subs: map<nat, nat>, before: map<nat, Chan>, now: map<nat, Chan>, e: Event, pos: nat)
      requires OfferedTo(subs, {}, before, now, e, pos)
      ensures now == FannedOut(cfg.policy, before, subs, e, pos)
          && Left(subs, {}, before) == Staying(cfg.policy, before, subs)
    {
    }

    /** All subscribers but `todo` were offered the event, and no other channel was. */
    ghost predicate OfferedTo(subs: map<nat, nat>, todo: set<nat>, before: map<nat, Chan>, now: map<nat, Chan>,
        e: Event, pos: nat) {
      && now.Keys == before.Keys && (forall id :: id in subs ==> subs[id] in before)
      && (forall id :: id in subs ==> now[subs[id]] == if id in todo then before[subs[id]]
          else Offered(cfg.policy, before[subs[id]], e, pos))
      && (forall n :: n in now && n !in subs.Values ==> now[n] == before[n])
    }

    lemma OfferStep(subs: map<nat, nat>, todo: set<nat>, id: nat, before: map<nat, Chan>, now: map<nat, Chan>,
        e: Event, pos: nat)
      requires OfferedTo(subs, todo, before, now, e, pos) && id in subs && id in todo && OpenSubs(subs, before)
      ensures now[subs[id]] == before[subs[id]]
      ensures OfferedTo(subs, todo - {id}, before, now[subs[id] := Offered(cfg.policy, now[subs[id]], e, pos)], e, pos)
    {
    }

    static lemma OneFewer(subs: map<nat, nat>, ids: set<nat>, id: nat)
      requires id in ids && ids <= subs.Keys
      ensures subs - (subs.Keys - ids) - {id} == subs - (subs.Keys - (ids - {id}))
    {
    }

    static lemma UpdatedTwice(m: map<string, Session>, key: string, a: Session, b: Session)
      ensures m[key := a][key := a] == m[key := a] && m[key := a][key := b] == m[key := b] && m[key := a][key] == a
    {
    }

    /** The subscribers once all but `todo` were offered the event. */
    function Left(subs: map<nat, nat>, todo: set<nat>, before: map<nat, Chan>): map<nat, nat>
      requires forall id :: id in subs ==> subs[id] in before
    {
      map id | id in subs && (id in todo || Stays(cfg.policy, before[subs[id]])) :: subs[id]
    }

    lemma LeftStep(subs: map<nat, nat>, todo: set<nat>, id: nat, before: map<nat, Chan>)
      requires id in subs && id in todo && forall i :: i in subs ==> subs[i] in before
      ensures Left(subs, todo - {id}, before) ==
              if Stays(cfg.policy, before[subs[id]]) then Left(subs, todo, before) else Left(subs, todo, before) - {id}
    {
    }

    /** The subscribers of a session have distinct, open channels. */
    lemma Subscribers(b: Bus, key: string)
      requires key in b.sessions && LinksOk(b) && ChansOk(cfg, b)
      ensures OpenSubs(b.sessions[key].subs, b.chans)
    {
      var subs := b.sessions[key].subs;
      forall id | id in subs
        ensures Linked(b, key, id, subs[id]) && b.chans[subs[id]].closes == 0 && !b.chans[subs[id]].marked
      {
        assert Linked(b, key, id, subs[id]);
        assert Registered(b, subs[id]);
        assert ChanOk(cfg, b.chans[subs[id]], HistoryOf(b, b.chans[subs[id]].born), true);
      }
    }

    method Append(e: Event)
      requires e.session in sessions && LinksOk(State()) && ChansOk(cfg, State())
      modifies this
      ensures State() == Recorded(cfg, old(State()), e)
    {
      var born := sessions[e.session].born;
      var hist := if born in published then published[born] else [];
      Subscribers(State(), e.session);
      FanOut(e.session, e, |hist|);
      var st := sessions[e.session];
      var ring := st.ring + [e];
      if |ring| > cfg.bufferSize {
        ring := ring[|ring| - cfg.bufferSize..];
      }
      sessions := sessions[e.session :=
          st.(ring := ring, lastActive := if e.timestamp.Some? then e.timestamp.value else 0)];
      published := published[born := hist + [e]];
    }

    /** The locked part of `Publish`. */
    method Record(e: Event) returns (victim: Option<string>)
      requires Valid()
      modifies this
      ensures Valid()
      ensures !old(closed) && NeedsEviction(cfg, old(State()), e.session) ==> Victim(old(sessions), victim)
      ensures State() == if old(closed) then old(State())
          else Recorded(cfg, Created(cfg, old(State()), e.session, victim), e)
    {
      if closed {
        return None;
      }
      victim := GetOrCreate(e.session);
      ghost var made := State();
      CreatedInv(cfg, old(State()), e.session, victim, made);
      Append(e);
      RecordedInv(cfg, made, e, State());
    }

    /** Puts the buffered events newer than the last one seen on an empty channel, never finding it full. */
    method ReplayOnto(ring: seq<Event>, lastEventId: string) returns (sent: seq<Event>)
      requires |ring| <= cfg.bufferSize
      ensures sent == Replay(ring, lastEventId)
    {
      sent := [];
      var after := ParseId(lastEventId);
      if after.Some? {
        for i := 0 to |ring|
          invariant sent == Newer(ring[..i], after.value) && |sent| <= i
        {
          assert ring[..i + 1][..i] == ring[..i];
          var m := ParseId(ring[i].id);
          if m.Some? && m.value > after.value {
            assert |sent| < cfg.bufferSize + cfg.queueSize;
            sent := sent + [ring[i]];
          }
        }
        assert ring[..|ring|] == ring;
      }
    }

    method Join(n: nat, key: string, lastEventId: string, now: int)
      requires key in sessions && |sessions[key].ring| <= cfg.bufferSize
      modifies this
      ensures State() == Joined(cfg, old(State()), n, key, lastEventId, now)
    {
      var st := sessions[key];
      var sent := ReplayOnto(st.ring, lastEventId);
      var hist := if st.born in published then published[st.born] else [];
      sessions := sessions[key :=
          st.(subs := st.subs[st.nextSubId := n], nextSubId := st.nextSubId + 1, lastActive := now)];
      chans := chans[n := Chan(key, st.born, st.nextSubId, cfg.bufferSize + cfg.queueSize, sent, 0, false, 0, 0, false,
          sent, |hist|, [], 0)];
    }

    method Enter(n: nat, key: string, lastEventId: string, now: int) returns (victim: Option<string>)
      requires Valid() && !closed && n !in chans
      modifies this
      ensures Valid()
      ensures NeedsEviction(cfg, old(State()), key) ==> Victim(old(sessions), victim)
      ensures State() == WithPeak(Joined(cfg, Created(cfg, old(State()), key, victim), n, key, lastEventId, now))
    {
      victim := GetOrCreate(key);
      ghost var made := State();
      CreatedInv(cfg, old(State()), key, victim, made);
      assert SessionOk(cfg, made, made.sessions[key]);
      Join(n, key, lastEventId, now);
      ghost var joined := State();
      JoinedInv(cfg, made, n, key, lastEventId, now, joined);
      RaisePeak();
      BusRuns.PlainInv(cfg, joined, State());
    }

    method RaisePeak()
      modifies `peak
      ensures State() == WithPeak(old(State()))
    {
      var subscribed := |Subscribed(sessions)|;
      if subscribed > peak {
        peak := subscribed;
      }
    }

    /** Subscribes the fresh channel `n`; a closed bus hands it back closed. */
    method Subscribe(n: nat, key: string, lastEventId: string, now: int) returns (victim: Option<string>)
      requires Valid() && n !in chans
      modifies this
      ensures Valid()
      ensures !old(closed) && NeedsEviction(cfg, old(State()), key) ==> Victim(old(sessions), victim)
      ensures State() == Apply(cfg, old(State()), Step.Subscribe(n, key, lastEventId, now, victim))
    {
      if closed {
        victim := None;
        chans := chans[n := Chan(key, 0, 0, cfg.bufferSize + cfg.queueSize, [], 0, true, 1, 0, true, [], 0, [], 0)];
        BusRuns.RefusedInv(cfg, old(State()), Step.Subscribe(n, key, lastEventId, now, victim), State());
      } else {
        victim := Enter(n, key, lastEventId, now);
      }
    }

    /** The `unsub` closure of subscription `n`; later calls do nothing. */
    method Unsub(n: nat)
      requires Valid() && n in chans
      modifies `sessions, `chans
      ensures Valid() && State() == Unsubscribed(old(State()), n)
    {
      var c := chans[n];
      if !c.done {
        chans := chans[n := c.(done := true)];
        if c.session in sessions {
          RemoveSub(c.session, c.subId);
        }
      } else {
        chans := chans[n := c.(done := true)];
      }
      UnsubscribedInv(cfg, old(State()), n, State());
    }

    /** What `Publish` does before it takes the lock. */
    method Stamp(call: nat, e: Event, now: int)
      requires Valid() && call !in calls
      modifies this
      ensures Valid() && State() == Apply(cfg, old(State()), Prepare(call, e, now))
    {
      ghost var before := State();
      var f := e;
      if f.id == "" {
        counter := counter + 1;
        f := f.(id := NextId(counter));
      }
      if f.timestamp.None? {
        f := f.(timestamp := Some(now));
      }
      calls := calls[call := f];
      BusRuns.PlainInv(cfg, before, State());
    }

    /** Of the channels that were `live`, those are closed whose session is not in `todo`, and if that is
        `key`, whose subscriber id is not in `ids`. */
    static ghost predicate ClosedSoFar(before: map<nat, Chan>, live: set<nat>, todo: set<string>, key: string,
        ids: set<nat>, now: map<nat, Chan>) {
      && now.Keys == before.Keys
      && forall n :: n in now ==>
           now[n] == if n in live && before[n].session !in todo
               && (before[n].session == key ==> before[n].subId !in ids)
                     then Closed(before[n]) else before[n]
    }

    /** `subs` are the live channels of session `key`, by subscriber id. */
    static ghost predicate SubsOf(before: map<nat, Chan>, live: set<nat>, key: string, subs: map<nat, nat>) {
      && live <= before.Keys
      && (forall id :: id in subs ==>
          subs[id] in live && before[subs[id]].session == key && before[subs[id]].subId == id)
      && (forall n :: n in live && before[n].session == key ==> before[n].subId in subs && subs[before[n].subId] == n)
    }

    /** At first nothing of session `key` is closed. */
    static lemma Start(before: map<nat, Chan>, live: set<nat>, todo: set<string>, key: string, subs: map<nat, nat>,
        now: map<nat, Chan>)
      requires SubsOf(before, live, key, subs) && key !in todo && ClosedSoFar(before, live, todo + {key}, "", {}, now)
      ensures ClosedSoFar(before, live, todo, key, subs.Keys, now)
    {
    }

    static lemma OneMoreClosed(before: map<nat, Chan>, live: set<nat>, todo: set<string>, key: string,
        subs: map<nat, nat>, ids: set<nat>, id: nat, now: map<nat, Chan>)
      requires SubsOf(before, live, key, subs) && key !in todo && id in ids && id in subs
          && ClosedSoFar(before, live, todo, key, ids, now)
      ensures subs[id] in now
          && ClosedSoFar(before, live, todo, key, ids - {id}, now[subs[id] := Closed(now[subs[id]])])
    {
    }

    method CloseSession(ghost before: map<nat, Chan>, ghost live: set<nat>, ghost todo: set<string>, key: string)
      requires key !in todo && key in sessions && SubsOf(before, live, key, sessions[key].subs)
      requires ClosedSoFar(before, live, todo + {key}, "", {}, chans)
      modifies `sessions, `chans
      ensures ClosedSoFar(before, live, todo, key, {}, chans)
      ensures sessions == old(sessions)[key := old(sessions)[key].(subs := map[])]
    {
      var st, subs := sessions[key], sessions[key].subs;
      var ids := subs.Keys;
      ghost var was := sessions;
      Start(before, live, todo, key, subs, chans);
      assert subs - (subs.Keys - ids) == subs && was[key := st] == was;
      while ids != {}
        invariant ids <= subs.Keys && sessions == was[key := st.(subs := subs - (subs.Keys - ids))]
        invariant ClosedSoFar(before, live, todo, key, ids, chans)
        decreases |ids|
      {
        var id :| id in ids;
        var left := subs - (subs.Keys - ids);
        OneMoreClosed(before, live, todo, key, subs, ids, id, chans);
        UpdatedTwice(was, key, st.(subs := left), st.(subs := left - {id}));
        Evict(key, id);
        OneFewer(subs, ids, id);
        ids := ids - {id};
      }
    }

    static ghost function Live(b: Bus): set<nat> {
      set n | n in b.chans && Registered(b, n)
    }

    static lemma LiveSubs(b: Bus, key: string)
      requires LinksOk(b) && key in b.sessions
      ensures SubsOf(b.chans, Live(b), key, b.sessions[key].subs)
    {
      forall id | id in b.sessions[key].subs
        ensures Linked(b, key, id, b.sessions[key].subs[id])
      {
      }
    }

    static lemma AllAreClosed(b: Bus, now: map<nat, Chan>)
      requires LinksOk(b) && ClosedSoFar(b.chans, Live(b), {}, "", {}, now)
      ensures now == AllClosed(b).chans
    {
      forall n | n in now
        ensures now[n] == AllClosed(b).chans[n]
      {
        ClosedWhenRegistered(b, n);
      }
    }

    method CloseSessions()
      requires LinksOk(State())
      modifies `sessions, `chans
      ensures State() == AllClosed(old(State())).(closed := closed)
    {
      ghost var b := State();
      var todo := sessions.Keys;
      while todo != {}
        invariant todo <= sessions.Keys == b.sessions.Keys && forall k :: k in todo ==> sessions[k] == b.sessions[k]
        invariant ClosedSoFar(b.chans, Live(b), todo, "", {}, chans)
        decreases |todo|
      {
        var key :| key in todo;
        LiveSubs(b, key);
        assert todo - {key} + {key} == todo;
        todo := todo - {key};
        CloseSession(b.chans, Live(b), todo, key);
        assert ClosedSoFar(b.chans, Live(b), todo, "", {}, chans);
      }
      sessions := map[];
      AllAreClosed(b, chans);
    }

    /** Closes every registered channel exactly once and forgets the sessions; a second call does nothing. */
    method Close()
      requires Valid()
      modifies this
      ensures Valid() && State() == if old(closed) then old(State()) else AllClosed(old(State()))
    {
      if !closed {
        CloseSessions();
        closed := true;
        CloseInv(cfg, old(State()), State());
      }
    }

    /** `Replay`: the buffered events, which are the newest of the session's history. */
    method Buffered(key: string) returns (events: Option<seq<Event>>)
      requires Valid()
      ensures events.Some? <==> key in sessions
      ensures events.Some? ==> events.value == Bounded(HistoryOf(State(), sessions[key].born), cfg.bufferSize)
    {
      if key !in sessions {
        return None;
      }
      assert SessionOk(cfg, State(), sessions[key]);
      return Some(sessions[key].ring);
    }
  }
}
