/** The in-memory event bus: replay rings, subscriber channels, slow-consumer policies and eviction. The
    functions here are its critical sections. */
module Bus {
  import opened Wrappers
  import opened Text

  // ----- event ids -----

  const ID_PREFIX := "evt_"

  function NextId(n: nat): string {
    ID_PREFIX + Decimal(n)
  }

  function ParseId(id: string): Option<nat> {
    if ID_PREFIX <= id then ParseUint(id[|ID_PREFIX|..]) else None
  }

  /** Ids the bus hands out parse back to their number, as long as the counter fits 64 bits. */
  lemma IdRoundTrip(n: nat)
    requires n <= MAX_UINT64
    ensures ParseId(NextId(n)) == Some(n)
  {
    DecimalRoundTrip(n);
    assert NextId(n)[|ID_PREFIX|..] == Decimal(n);
  }

  // ----- state -----

  /** `payload` stands for the rest of the event; an unset timestamp is `None`. */
  datatype Event = Event(id: string, timestamp: Option<int>, session: string, payload: string)

  datatype Policy = DropEvent | DropSubscriber

  datatype Config = Config(bufferSize: nat, queueSize: nat, policy: Policy, maxSessions: nat)

  /** One subscription: its channel, its place in a session, and its `unsub` closure (`done` once run).
      `sent` is everything ever put on the channel, of which `received` are taken off; it is `replayed`
      followed by the live events, whose positions in the session's history are `at`. `closes` counts
      calls of `close`, `lateSends` sends after it, `drops` events it was too slow for. */
  datatype Chan = Chan(
    session: string, born: nat, subId: nat, cap: nat,
    sent: seq<Event>, received: nat, marked: bool, closes: nat, lateSends: nat, done: bool,
    replayed: seq<Event>, joined: nat, at: seq<nat>, drops: nat)

  /** `born` tells apart the sessions that have had one id; `subs` maps subscriber ids to channels. */
  datatype Session = Session(born: nat, ring: seq<Event>, subs: map<nat, nat>, nextSubId: nat, lastActive: int)

  /** `calls` are publish calls that have an id and wait for the lock. `published` is each session's whole
      history, by birth; `peak` the most sessions that ever had subscribers at once. */
  datatype Bus = Bus(
    counter: nat, calls: map<nat, Event>, closed: bool,
    sessions: map<string, Session>, chans: map<nat, Chan>,
    published: map<nat, seq<Event>>, births: nat, peak: nat)

  const EMPTY := Bus(0, map[], false, map[], map[], map[], 0, 0)

  // ----- sessions -----

  /** Everything published to the session of that birth. */
  function HistoryOf(b: Bus, born: nat): seq<Event> {
    if born in b.published then b.published[born] else []
  }

  function Subscribed(sessions: map<string, Session>): set<string> {
    set k | k in sessions && sessions[k].subs != map[]
  }

  function WithPeak(b: Bus): Bus {
    var now := |Subscribed(b.sessions)|;
    if now > b.peak then b.(peak := now) else b
  }

  predicate Idle(sessions: map<string, Session>, k: string) {
    k in sessions && sessions[k].subs == map[]
  }

  /** What `evictIdleSessionLocked` may pick: an idle session no idle session is older than. */
  ghost predicate Victim(sessions: map<string, Session>, victim: Option<string>) {
    match victim
    case None => forall k :: !Idle(sessions, k)
    case Some(v) => Idle(sessions, v) && forall k :: Idle(sessions, k) ==>
        sessions[v].lastActive <= sessions[k].lastActive
  }

  /** The session is missing and the bus is full. */
  predicate NeedsEviction(cfg: Config, b: Bus, key: string) {
    key !in b.sessions && cfg.maxSessions > 0 && |b.sessions| >= cfg.maxSessions
  }

  function Evicted(sessions: map<string, Session>, victim: Option<string>): map<string, Session> {
    match victim
    case None => sessions
    case Some(v) => sessions - {v}
  }

  /** `getOrCreateSessionLocked`, with the victim it picks. */
  function Created(cfg: Config, b: Bus, key: string, victim: Option<string>): Bus {
    if key in b.sessions then b
    else
      var kept := if NeedsEviction(cfg, b, key) then Evicted(b.sessions, victim) else b.sessions;
      b.(sessions := kept[key := Session(b.births, [], map[], 0, 0)],
         published := b.published[b.births := []], births := b.births + 1)
  }

  // ----- channels -----

  function Closed(c: Chan): Chan {
    if c.marked then c else c.(marked := true, closes := c.closes + 1)
  }

  predicate HasRoom(c: Chan) {
    |c.sent| < c.received + c.cap
  }

  /** The non-blocking send of the event at position `pos` of the history. */
  function Offered(policy: Policy, c: Chan, e: Event, pos: nat): Chan {
    if c.closes > 0 then c.(lateSends := c.lateSends + 1)
    else if HasRoom(c) then c.(sent := c.sent + [e], at := c.at + [pos])
    else if policy.DropSubscriber? then Closed(c)
    else c.(drops := c.drops + 1)
  }

  /** A subscriber that cannot keep up is removed under `DropSubscriber`. */
  predicate Stays(policy: Policy, c: Chan) {
    policy.DropEvent? || c.closes > 0 || HasRoom(c)
  }

  function FannedOut(policy: Policy, chans: map<nat, Chan>, subs: map<nat, nat>, e: Event, pos: nat): map<nat, Chan> {
    map n | n in chans :: if n in subs.Values then Offered(policy, chans[n], e, pos) else chans[n]
  }

  function Staying(policy: Policy, chans: map<nat, Chan>, subs: map<nat, nat>): map<nat, nat> {
    map id | id in subs && (subs[id] in chans ==> Stays(policy, chans[subs[id]])) :: subs[id]
  }

  /** The ring keeps the newest events. */
  function Bounded(ring: seq<Event>, size: nat): seq<Event> {
    if |ring| > size then ring[|ring| - size..] else ring
  }

  /** Records an event in a session that exists, and offers it to its subscribers. */
  function Recorded(cfg: Config, b: Bus, e: Event): Bus
    requires e.session in b.sessions
  {
    var st := b.sessions[e.session];
    var hist := HistoryOf(b, st.born);
    b.(sessions := b.sessions[e.session := st.(
          ring := Bounded(st.ring + [e], cfg.bufferSize),
          subs := Staying(cfg.policy, b.chans, st.subs),
          lastActive := if e.timestamp.Some? then e.timestamp.value else 0)],
       chans := FannedOut(cfg.policy, b.chans, st.subs, e, |hist|),
       published := b.published[st.born := hist + [e]])
  }

  /** Buffered events newer than the last one seen. */
  function Newer(ring: seq<Event>, after: nat): seq<Event> {
    if ring == [] then []
    else Newer(ring[..|ring| - 1], after)
         + var n := ParseId(ring[|ring| - 1].id); if n.Some? && n.value > after then [ring[|ring| - 1]] else []
  }

  function Replay(ring: seq<Event>, lastEventId: string): seq<Event> {
    var after := ParseId(lastEventId);
    if after.Some? then Newer(ring, after.value) else []
  }

  /** Adds subscription `n` to a session that exists. */
  function Joined(cfg: Config, b: Bus, n: nat, key: string, lastEventId: string, now: int): Bus
    requires key in b.sessions
  {
    var st := b.sessions[key];
    var replayed := Replay(st.ring, lastEventId);
    b.(sessions := b.sessions[key :=
        st.(subs := st.subs[st.nextSubId := n], nextSubId := st.nextSubId + 1, lastActive := now)],
       chans := b.chans[n := Chan(key, st.born, st.nextSubId, cfg.bufferSize + cfg.queueSize, replayed, 0, false, 0,
                                  0, false, replayed, |HistoryOf(b, st.born)|, [], 0)])
  }

  /** `removeSubLocked`. */
  function Removed(b: Bus, key: string, id: nat): Bus
    requires key in b.sessions
  {
    var st := b.sessions[key];
    if id in st.subs && st.subs[id] in b.chans then
      b.(sessions := b.sessions[key := st.(subs := st.subs - {id})],
         chans := b.chans[st.subs[id] := Closed(b.chans[st.subs[id]])])
    else b
  }

  /** Runs the `unsub` closure of subscription `n`. */
  function Unsubscribed(b: Bus, n: nat): Bus
    requires n in b.chans
  {
    var c := b.chans[n];
    var once := b.(chans := b.chans[n := c.(done := true)]);
    if c.done || c.session !in b.sessions then once else Removed(once, c.session, c.subId)
  }

  /** Closing the bus closes every registered channel and forgets the sessions. */
  function AllClosed(b: Bus): Bus {
    b.(closed := true, sessions := map[],
       chans := map n | n in b.chans :: if exists k :: k in b.sessions && n in b.sessions[k].subs.Values
           then Closed(b.chans[n]) else b.chans[n])
  }

  // ----- steps -----

  /** One atomic step. `Prepare` is the part of `Publish` before the lock, `Deliver` the part under it;
      `now` is the clock; `Unsubscribe` runs on request or on cancellation; `Receive` is the consumer. */
  datatype Step =
    | Prepare(call: nat, event: Event, now: int)
    | Deliver(call: nat, victim: Option<string>)
    | Subscribe(n: nat, session: string, lastEventId: string, now: int, victim: Option<string>)
    | Receive(n: nat)
    | Unsubscribe(n: nat)
    | Close

  /** `Publish` fills in a missing id and timestamp before it takes the lock. */
  function Prepared(b: Bus, e: Event, now: int): Event {
    e.(id := if e.id == "" then NextId(b.counter + 1) else e.id,
       timestamp := if e.timestamp.None? then Some(now) else e.timestamp)
  }

  ghost predicate Enabled(cfg: Config, b: Bus, step: Step) {
    match step
    case Prepare(call, _, _) => call !in b.calls
    case Deliver(call, victim) => call in b.calls
        && (NeedsEviction(cfg, b, b.calls[call].session) ==> Victim(b.sessions, victim))
    case Subscribe(n, session, _, _, victim) => n !in b.chans
        && (NeedsEviction(cfg, b, session) ==> Victim(b.sessions, victim))
    case Receive(n) => n in b.chans && b.chans[n].received < |b.chans[n].sent|
    case Unsubscribe(n) => n in b.chans
    case Close => true
  }


  function Apply(cfg: Config, b: Bus, step: Step): Bus
    requires step.Deliver? ==> step.call in b.calls
    requires step.Receive? || step.Unsubscribe? ==> step.n in b.chans
  {
    match step
    case Prepare(call, e, now) =>
      b.(counter := if e.id == "" then b.counter + 1 else b.counter, calls := b.calls[call := Prepared(b, e, now)])
    case Deliver(call, victim) =>
      var e := b.calls[call];
      var taken := b.(calls := b.calls - {call});
      if b.closed then taken else Recorded(cfg, Created(cfg, taken, e.session, victim), e)
    case Subscribe(n, session, lastEventId, now, victim) =>
      if b.closed then b.(chans := b.chans[n :=
          Chan(session, 0, 0, cfg.bufferSize + cfg.queueSize, [], 0, true, 1, 0, true, [], 0, [], 0)])
      else WithPeak(Joined(cfg, Created(cfg, b, session, victim), n, session, lastEventId, now))
    case Receive(n) => b.(chans := b.chans[n := b.chans[n].(received := b.chans[n].received + 1)])
    case Unsubscribe(n) => Unsubscribed(b, n)
    case Close => if b.closed then b else AllClosed(b)
  }
}
