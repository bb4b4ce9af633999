/** The announcements of agents that take turns in a session. */
module Switching {
  import opened Wrappers

  /** Where a caller of `maybeEmitAgentSwitched` is: past its load of the map, or past its swap and about to
      publish. `ticket` is the position of its swap among those of the session that changed the agent. */
  datatype Phase = Loaded(session: string, agent: string) | Swapped(session: string, ticket: nat)

  /** A session: its agent in the shared map, the agents in the order of the swaps that changed it, and, in the
      order of the bus, whose swap each announcement is for. */
  datatype Line = Line(current: Option<string>, swaps: seq<string>, bus: seq<nat>)

  datatype Switches = Switches(lines: map<string, Line>, callers: map<nat, Phase>)

  datatype Move = Load(caller: nat, session: string, agent: string) | Swap(caller: nat) | Publish(caller: nat)

  const NEW_LINE := Line(None, [], [])
  const START := Switches(map[], map[])

  function LineOf(s: Switches, session: string): Line {
    if session in s.lines then s.lines[session] else NEW_LINE
  }

  predicate CanMove(s: Switches, m: Move) {
    match m
    case Load(caller, _, _) => caller !in s.callers
    case Swap(caller) => caller in s.callers && s.callers[caller].Loaded?
    case Publish(caller) => caller in s.callers && s.callers[caller].Swapped?
  }

  /** A move is one atomic step; one its caller is not at is skipped. */
  function Moved(s: Switches, m: Move): Switches {
    if !CanMove(s, m) then s
    else
      match m
      case Load(caller, session, agent) =>
        if agent == "" || LineOf(s, session).current == Some(agent) then s
        else s.(callers := s.callers[caller := Loaded(session, agent)])
      case Swap(caller) => SwappedIn(s, caller, s.callers[caller].session, s.callers[caller].agent)
      case Publish(caller) => PublishedBy(s, caller, s.callers[caller].session, s.callers[caller].ticket)
  }

  function SwappedIn(s: Switches, caller: nat, session: string, agent: string): Switches {
    var line := LineOf(s, session);
    if line.current == Some(agent) then s.(callers := s.callers - {caller})
    else
      Switches(s.lines[session := line.(current := Some(agent), swaps := line.swaps + [agent])],
               s.callers[caller := Swapped(session, |line.swaps|)])
  }

  function PublishedBy(s: Switches, caller: nat, session: string, ticket: nat): Switches {
    var line := LineOf(s, session);
    Switches(s.lines[session := line.(bus := line.bus + [ticket])], s.callers - {caller})
  }

  function After(s: Switches, moves: seq<Move>): Switches {
    if moves == [] then s else Moved(After(s, moves[..|moves| - 1]), moves[|moves| - 1])
  }

  // ----- what every interleaving keeps -----

  predicate Alternates(agents: seq<string>) {
    forall k :: 0 < k < |agents| ==> agents[k - 1] != agents[k]
  }

  /** No agent is swapped in twice in a row, and the last one swapped in is the current one. */
  predicate SwapsOk(line: Line) {
    && Alternates(line.swaps)
    && line.current == if line.swaps == [] then None else Some(line.swaps[|line.swaps| - 1])
  }

  /** The caller is between its swap and its publish in the session. */
  predicate InGap(s: Switches, session: string, caller: nat) {
    caller in s.callers && s.callers[caller].Swapped? && s.callers[caller].session == session
  }

  ghost predicate Held(s: Switches, session: string, ticket: nat) {
    exists c :: InGap(s, session, c) && s.callers[c].ticket == ticket
  }

  /** Every announcement is for one swap, and for each its own. */
  predicate BusOk(line: Line) {
    && (forall k :: 0 <= k < |line.bus| ==> line.bus[k] < |line.swaps|)
    && (forall j, k :: 0 <= j < k < |line.bus| ==> line.bus[j] != line.bus[k])
  }

  /** Callers in the gap are about to announce different swaps, none of which is on the bus. */
  ghost predicate GapOk(s: Switches, session: string) {
    var line := LineOf(s, session);
    && (forall c :: InGap(s, session, c) ==> s.callers[c].ticket < |line.swaps| && s.callers[c].ticket !in line.bus)
    && (forall c, d :: InGap(s, session, c) && InGap(s, session, d) && c != d ==>
          s.callers[c].ticket != s.callers[d].ticket)
  }

  /** Each swap is announced or about to be. */
  ghost predicate NoneLost(s: Switches, session: string) {
    var line := LineOf(s, session);
    forall t: nat :: t < |line.swaps| ==> t in line.bus || Held(s, session, t)
  }

  ghost predicate AnnouncedOnce(s: Switches, session: string) {
    SwapsOk(LineOf(s, session)) && BusOk(LineOf(s, session)) && GapOk(s, session) && NoneLost(s, session)
  }

  lemma LoadOk(s: Switches, m: Move, session: string, t: Switches)
    requires AnnouncedOnce(s, session) && m.Load? && t == Moved(s, m)
    ensures AnnouncedOnce(t, session) && LineOf(t, session) == LineOf(s, session)
  {
    forall c
      ensures InGap(t, session, c) <==> InGap(s, session, c)
    {
    }
    forall k: nat | Held(s, session, k)
      ensures Held(t, session, k)
    {
      var c :| InGap(s, session, c) && s.callers[c].ticket == k;
      assert InGap(t, session, c);
    }
  }

  lemma SwapOk(s: Switches, m: Move, session: string, t: Switches)
    requires AnnouncedOnce(s, session) && m.Swap? && t == Moved(s, m)
    ensures AnnouncedOnce(t, session)
  {
    SwapKeepsGap(s, m, session, t);
    SwapLosesNone(s, m, session, t);
  }

  lemma SwapKeepsGap(s: Switches, m: Move, session: string, t: Switches)
    requires BusOk(LineOf(s, session)) && GapOk(s, session) && m.Swap? && t == Moved(s, m)
    ensures GapOk(t, session)
  {
    forall c
      ensures InGap(t, session, c) ==>
                || (InGap(s, session, c) && t.callers[c] == s.callers[c])
                || (c == m.caller && t.callers[c].ticket == |LineOf(s, session).swaps|)
    {
    }
  }

  lemma SwapLosesNone(s: Switches, m: Move, session: string, t: Switches)
    requires NoneLost(s, session) && m.Swap? && t == Moved(s, m)
    ensures NoneLost(t, session)
  {
    forall k: nat | Held(s, session, k)
      ensures Held(t, session, k)
    {
      var c :| InGap(s, session, c) && s.callers[c].ticket == k;
      assert InGap(t, session, c);
    }
    if CanMove(s, m) && s.callers[m.caller].session == session && InGap(t, session, m.caller) {
      assert Held(t, session, |LineOf(s, session).swaps|);
    }
  }

  lemma PublishOk(s: Switches, m: Move, session: string, t: Switches)
    requires AnnouncedOnce(s, session) && m.Publish? && t == Moved(s, m)
    ensures AnnouncedOnce(t, session)
  {
    forall k: nat | Held(s, session, k) && k !in LineOf(t, session).bus
      ensures Held(t, session, k)
    {
      var c :| InGap(s, session, c) && s.callers[c].ticket == k;
      assert InGap(t, session, c);
    }
    if CanMove(s, m) && s.callers[m.caller].session == session {
      assert LineOf(t, session).bus == LineOf(s, session).bus + [s.callers[m.caller].ticket];
    }
  }

  lemma MoveOk(s: Switches, m: Move, session: string)
    requires AnnouncedOnce(s, session)
    ensures AnnouncedOnce(Moved(s, m), session)
  {
    match m
    case Load(_, _, _) => LoadOk(s, m, session, Moved(s, m));
    case Swap(_) => SwapOk(s, m, session, Moved(s, m));
    case Publish(_) => PublishOk(s, m, session, Moved(s, m));
  }

  /** In every interleaving of any number of callers, no agent is swapped in twice in a row, the last one
      swapped in is the current one, and each swap is announced once or about to be. */
  lemma {:induction false} SwitchesAreAnnouncedOnce(s: Switches, moves: seq<Move>, session: string)
    requires AnnouncedOnce(s, session)
    ensures AnnouncedOnce(After(s, moves), session)
  {
    if moves != [] {
      SwitchesAreAnnouncedOnce(s, moves[..|moves| - 1], session);
      MoveOk(After(s, moves[..|moves| - 1]), moves[|moves| - 1], session);
    }
  }

  // ----- when the bus tells the truth -----

  /** The agents as the bus announces them. */
  function Announced(line: Line): seq<string> {
    seq(|line.bus|, k requires 0 <= k < |line.bus| =>
      if line.bus[k] < |line.swaps| then line.swaps[line.bus[k]] else "")
  }

  /** What a consumer of the bus expects: no agent is announced twice in a row, and the last one announced is
      the current one, unless another is about to be announced. */
  ghost predicate TellsTruth(s: Switches, session: string) {
    var line := LineOf(s, session);
    && Alternates(Announced(line))
    && (GapEmpty(s, session) ==>
          line.current == if line.bus == [] then None else Some(Announced(line)[|line.bus| - 1]))
  }

  ghost predicate GapEmpty(s: Switches, session: string) {
    forall c :: !InGap(s, session, c)
  }

  predicate InSwapOrder(line: Line) {
    forall k :: 0 <= k < |line.bus| ==> line.bus[k] == k
  }

  /** A caller publishes while one that swapped before it in the session has not. */
  ghost predicate Overtakes(s: Switches, session: string, m: Move) {
    && m.Publish? && InGap(s, session, m.caller)
    && exists d :: InGap(s, session, d) && s.callers[d].ticket < s.callers[m.caller].ticket
  }

  /** Two callers of the session are between swap and publish at the same time. */
  ghost predicate Overlap(s: Switches, session: string) {
    exists c, d :: c != d && InGap(s, session, c) && InGap(s, session, d)
  }

  lemma OnBus(line: Line, t: nat)
    requires InSwapOrder(line)
    ensures t in line.bus <==> t < |line.bus|
  {
    if t < |line.bus| {
      assert line.bus[t] == t;
    }
  }

  lemma NextTicket(s: Switches, session: string, c: nat)
    requires AnnouncedOnce(s, session) && InSwapOrder(LineOf(s, session)) && InGap(s, session, c)
    ensures s.callers[c].ticket >= |LineOf(s, session).bus|
    ensures s.callers[c].ticket == |LineOf(s, session).bus| <==> !Overtakes(s, session, Publish(c))
  {
    var line := LineOf(s, session);
    forall d | InGap(s, session, d)
      ensures s.callers[d].ticket >= |line.bus|
    {
      OnBus(line, s.callers[d].ticket);
    }
    if s.callers[c].ticket > |line.bus| {
      OnBus(line, |line.bus|);
      assert Held(s, session, |line.bus|);
    }
  }

  lemma OrderStep(s: Switches, session: string, m: Move)
    requires AnnouncedOnce(s, session)
    ensures InSwapOrder(LineOf(Moved(s, m), session))
            <==> InSwapOrder(LineOf(s, session)) && !Overtakes(s, session, m)
  {
    var bus := LineOf(s, session).bus;
    var then_ := LineOf(Moved(s, m), session).bus;
    if m.Publish? && InGap(s, session, m.caller) {
      assert then_ == bus + [s.callers[m.caller].ticket];
      assert forall k :: 0 <= k < |bus| ==> then_[k] == bus[k];
      if InSwapOrder(LineOf(s, session)) {
        NextTicket(s, session, m.caller);
        assert m == Publish(m.caller);
        assert InSwapOrder(LineOf(Moved(s, m), session)) <==> then_[|bus|] == |bus|;
      }
    } else {
      assert then_ == bus;
    }
  }

  ghost predicate OvertakesAt(s: Switches, moves: seq<Move>, session: string, k: nat)
    requires k < |moves|
  {
    Overtakes(After(s, moves[..k]), session, moves[k])
  }

  /** The bus has the order of the swaps if and only if no caller overtakes another. */
  lemma {:induction false} OrderIff(s: Switches, moves: seq<Move>, session: string)
    requires AnnouncedOnce(s, session) && InSwapOrder(LineOf(s, session))
    ensures InSwapOrder(LineOf(After(s, moves), session))
            <==> forall k: nat :: k < |moves| ==> !OvertakesAt(s, moves, session, k)
  {
    if moves != [] {
      var n := |moves| - 1;
      OrderIff(s, moves[..n], session);
      SwitchesAreAnnouncedOnce(s, moves[..n], session);
      OrderStep(After(s, moves[..n]), session, moves[n]);
      assert OvertakesAt(s, moves, session, n) == Overtakes(After(s, moves[..n]), session, moves[n]);
      forall k: nat | k < n
        ensures OvertakesAt(s, moves, session, k) == OvertakesAt(s, moves[..n], session, k)
      {
        assert moves[..n][..k] == moves[..k];
      }
    }
  }

  lemma OrderTellsTruth(s: Switches, session: string)
    requires AnnouncedOnce(s, session) && InSwapOrder(LineOf(s, session))
    ensures TellsTruth(s, session)
  {
    var line := LineOf(s, session);
    BusFits(line);
    assert forall k :: 0 <= k < |line.bus| ==> Announced(line)[k] == line.swaps[k];
    if GapEmpty(s, session) {
      AllOnBus(s, session);
    }
  }

  lemma BusFits(line: Line)
    requires BusOk(line) && InSwapOrder(line)
    ensures |line.bus| <= |line.swaps|
  {
    if line.bus != [] {
      assert line.bus[|line.bus| - 1] == |line.bus| - 1;
    }
  }

  lemma AllOnBus(s: Switches, session: string)
    requires AnnouncedOnce(s, session) && InSwapOrder(LineOf(s, session)) && GapEmpty(s, session)
    ensures |LineOf(s, session).bus| == |LineOf(s, session).swaps|
  {
    var line := LineOf(s, session);
    BusFits(line);
    OnBus(line, |line.bus|);
  }

  // ----- however it goes on -----

  ghost predicate OnlyPublish(moves: seq<Move>) {
    forall k :: 0 <= k < |moves| ==> moves[k].Publish?
  }

  /** The callers in the gap publish in some order, and nothing else happens. */
  ghost predicate Empties(s: Switches, session: string, ends: seq<Move>) {
    OnlyPublish(ends) && GapEmpty(After(s, ends), session)
  }

  /** In whatever order those in the gap publish, the bus tells the truth in the end. */
  ghost predicate EndsInTruth(s: Switches, session: string) {
    forall ends :: Empties(s, session, ends) ==> TellsTruth(After(s, ends), session)
  }

  lemma {:induction false} AloneEndsInOrder(s: Switches, session: string, ends: seq<Move>)
    requires AnnouncedOnce(s, session) && InSwapOrder(LineOf(s, session)) && !Overlap(s, session)
    requires OnlyPublish(ends)
    ensures InSwapOrder(LineOf(After(s, ends), session)) && !Overlap(After(s, ends), session)
  {
    if ends != [] {
      var n := |ends| - 1;
      AloneEndsInOrder(s, session, ends[..n]);
      SwitchesAreAnnouncedOnce(s, ends[..n], session);
      var t := After(s, ends[..n]);
      OrderStep(t, session, ends[n]);
      forall c
        ensures InGap(Moved(t, ends[n]), session, c) ==> InGap(t, session, c)
      {
      }
    }
  }

  /** All callers in the gap but one publish. */
  lemma {:induction false} PublishBut(s: Switches, session: string, keep: nat, n: nat) returns (ends: seq<Move>)
    requires InGap(s, session, keep) && n == |s.callers|
    ensures OnlyPublish(ends) && LineOf(After(s, ends), session).swaps == LineOf(s, session).swaps
    ensures forall c :: InGap(After(s, ends), session, c) <==> c == keep
    ensures InGap(After(s, ends), session, keep) && After(s, ends).callers[keep] == s.callers[keep]
    decreases n
  {
    if c :| c != keep && InGap(s, session, c) {
      var t := Moved(s, Publish(c));
      assert InGap(t, session, keep);
      assert t.callers.Keys == s.callers.Keys - {c};
      var rest := PublishBut(t, session, keep, n - 1);
      ends := [Publish(c)] + rest;
      AfterJoin(s, [Publish(c)], rest);
      assert After(s, [Publish(c)]) == t;
    } else {
      ends := [];
    }
  }

  lemma {:induction false} AfterJoin(s: Switches, a: seq<Move>, b: seq<Move>)
    ensures After(s, a + b) == After(After(s, a), b)
  {
    if b == [] {
      assert a + b == a;
    } else {
      assert (a + b)[..|a + b| - 1] == a + b[..|b| - 1];
      AfterJoin(s, a, b[..|b| - 1]);
    }
  }

  /** Of two callers in the gap, whoever did not swap last can publish last. */
  lemma OverlapCanMislead(s: Switches, session: string) returns (ends: seq<Move>)
    requires AnnouncedOnce(s, session) && InSwapOrder(LineOf(s, session)) && Overlap(s, session)
    ensures Empties(s, session, ends) && !TellsTruth(After(s, ends), session)
  {
    var line := LineOf(s, session);
    var keep := SecondLast(s, session);
    var rest := PublishBut(s, session, keep, |s.callers|);
    SwitchesAreAnnouncedOnce(s, rest, session);
    ends := rest + [Publish(keep)];
    AfterJoin(s, rest, [Publish(keep)]);
    var t := After(s, rest);
    var u := Moved(t, Publish(keep));
    assert After(t, [Publish(keep)]) == u;
    assert LineOf(u, session).bus == LineOf(t, session).bus + [|line.swaps| - 2];
    forall c
      ensures !InGap(u, session, c)
    {
      assert InGap(t, session, c) <==> c == keep;
    }
    assert Announced(LineOf(u, session))[|LineOf(t, session).bus|] == line.swaps[|line.swaps| - 2];
    assert line.swaps[|line.swaps| - 2] != line.swaps[|line.swaps| - 1];
  }

  lemma SecondLast(s: Switches, session: string) returns (keep: nat)
    requires AnnouncedOnce(s, session) && InSwapOrder(LineOf(s, session)) && Overlap(s, session)
    ensures InGap(s, session, keep) && s.callers[keep].ticket == |LineOf(s, session).swaps| - 2
  {
    var line := LineOf(s, session);
    var c, d :| c != d && InGap(s, session, c) && InGap(s, session, d);
    OnBus(line, s.callers[c].ticket);
    OnBus(line, s.callers[d].ticket);
    OnBus(line, |line.swaps| - 2);
    assert Held(s, session, |line.swaps| - 2);
    keep :| InGap(s, session, keep) && s.callers[keep].ticket == |line.swaps| - 2;
  }

  lemma AloneEndsInTruth(s: Switches, session: string)
    requires AnnouncedOnce(s, session) && InSwapOrder(LineOf(s, session)) && !Overlap(s, session)
    ensures EndsInTruth(s, session)
  {
    forall ends | Empties(s, session, ends)
      ensures TellsTruth(After(s, ends), session)
    {
      AloneEndsInOrder(s, session, ends);
      SwitchesAreAnnouncedOnce(s, ends, session);
      OrderTellsTruth(After(s, ends), session);
    }
  }

  /** As long as the bus is in order, it is sure to tell the truth in the end if and only if at most one caller
      of the session is between its swap and its publish. */
  lemma TruthIffAlone(s: Switches, session: string)
    requires AnnouncedOnce(s, session) && InSwapOrder(LineOf(s, session))
    ensures EndsInTruth(s, session) <==> !Overlap(s, session)
  {
    if Overlap(s, session) {
      var ends := OverlapCanMislead(s, session);
    } else {
      AloneEndsInTruth(s, session);
    }
  }

  /** At every moment of a run. */
  ghost predicate AlwaysSafe(s: Switches, moves: seq<Move>, session: string) {
    EndsInTruth(After(s, moves), session) && (moves != [] ==> AlwaysSafe(s, moves[..|moves| - 1], session))
  }

  ghost predicate NeverOverlap(s: Switches, moves: seq<Move>, session: string) {
    !Overlap(After(s, moves), session) && (moves != [] ==> NeverOverlap(s, moves[..|moves| - 1], session))
  }

  /** For every run: the bus is at no moment at risk of misleading its consumers if and only if no two callers
      of the session are ever between swap and publish at the same time. */
  lemma {:induction false} TruthIffNoOverlap(s: Switches, moves: seq<Move>, session: string)
    requires AnnouncedOnce(s, session) && InSwapOrder(LineOf(s, session))
    ensures AlwaysSafe(s, moves, session) <==> NeverOverlap(s, moves, session)
    ensures NeverOverlap(s, moves, session) ==>
              InSwapOrder(LineOf(After(s, moves), session)) && TellsTruth(After(s, moves), session)
  {
    if moves == [] {
      TruthIffAlone(s, session);
      OrderTellsTruth(s, session);
    } else {
      var n := |moves| - 1;
      TruthIffNoOverlap(s, moves[..n], session);
      if NeverOverlap(s, moves[..n], session) {
        SwitchesAreAnnouncedOnce(s, moves[..n], session);
        SwitchesAreAnnouncedOnce(s, moves, session);
        OrderStep(After(s, moves[..n]), session, moves[n]);
        TruthIffAlone(After(s, moves), session);
        OrderTellsTruth(After(s, moves), session);
      }
    }
  }

  // ----- a run that misleads -----

  function FirstTwo(): seq<Move> {
    [Load(0, "s", "a"), Load(1, "s", "b"), Swap(0), Swap(1), Publish(1), Publish(0)]
  }

  /** Two callers overlap and publish in the other order; a third then announces an agent twice in a row. */
  lemma LateAnnouncement()
    ensures AnnouncedOnce(START, "s")
    ensures var line := LineOf(After(START, FirstTwo()), "s");
            Announced(line) == ["b", "a"] && line.current == Some("b") && GapEmpty(After(START, FirstTwo()), "s")
    ensures Announced(LineOf(After(START, FirstTwo() + [Load(2, "s", "a"), Swap(2), Publish(2)]), "s"))
            == ["b", "a", "a"]
  {
    TwoSwap();
    TwoPublish();
    SixMoves(START, FirstTwo());
    ThirdRepeats(After(START, FirstTwo()));
    AfterJoin(START, FirstTwo(), [Load(2, "s", "a"), Swap(2), Publish(2)]);
  }

  lemma TwoSwap()
    ensures Moved(Moved(Moved(Moved(START, Load(0, "s", "a")), Load(1, "s", "b")), Swap(0)), Swap(1))
            == Switches(map["s" := Line(Some("b"), ["a", "b"], [])], map[0 := Swapped("s", 0), 1 := Swapped("s", 1)])
  {
    var s := Moved(START, Load(0, "s", "a"));
    assert s == Switches(map[], map[0 := Loaded("s", "a")]);
    var t := Moved(s, Load(1, "s", "b"));
    assert t == Switches(map[], map[0 := Loaded("s", "a"), 1 := Loaded("s", "b")]);
    var u := Moved(t, Swap(0));
    assert LineOf(u, "s") == Line(Some("a"), ["a"], []);
    assert u.callers == map[0 := Swapped("s", 0), 1 := Loaded("s", "b")];
    var v := Moved(u, Swap(1));
    assert LineOf(v, "s") == Line(Some("b"), ["a", "b"], []);
    assert v.callers == map[0 := Swapped("s", 0), 1 := Swapped("s", 1)];
  }

  lemma TwoPublish()
    ensures Moved(Moved(Switches(map["s" := Line(Some("b"), ["a", "b"], [])],
                                 map[0 := Swapped("s", 0), 1 := Swapped("s", 1)]), Publish(1)), Publish(0))
            == Switches(map["s" := Line(Some("b"), ["a", "b"], [1, 0])], map[])
  {
    var s := Switches(map["s" := Line(Some("b"), ["a", "b"], [])], map[0 := Swapped("s", 0), 1 := Swapped("s", 1)]);
    var t := Moved(s, Publish(1));
    assert LineOf(t, "s") == Line(Some("b"), ["a", "b"], [1]);
    assert t.callers == map[0 := Swapped("s", 0)];
    var u := Moved(t, Publish(0));
    assert LineOf(u, "s") == Line(Some("b"), ["a", "b"], [1, 0]);
    assert u.callers == map[];
  }

  lemma ThirdRepeats(s: Switches)
    requires s == Switches(map["s" := Line(Some("b"), ["a", "b"], [1, 0])], map[])
    ensures Announced(LineOf(After(s, [Load(2, "s", "a"), Swap(2), Publish(2)]), "s")) == ["b", "a", "a"]
  {
    var t := Moved(s, Load(2, "s", "a"));
    assert t.callers == map[2 := Loaded("s", "a")] && t.lines == s.lines;
    var u := Moved(t, Swap(2));
    assert u.callers == map[2 := Swapped("s", 2)];
    assert LineOf(u, "s") == Line(Some("a"), ["a", "b", "a"], [1, 0]);
    assert LineOf(Moved(u, Publish(2)), "s") == Line(Some("a"), ["a", "b", "a"], [1, 0, 2]);
    ThreeMoves(s, [Load(2, "s", "a"), Swap(2), Publish(2)]);
  }

  lemma ThreeMoves(s: Switches, moves: seq<Move>)
    requires |moves| == 3
    ensures After(s, moves) == Moved(Moved(Moved(s, moves[0]), moves[1]), moves[2])
  {
    assert moves[..2][..1] == moves[..1] && moves[..1][..0] == [];
    assert After(s, moves[..1]) == Moved(s, moves[0]);
    assert After(s, moves[..2]) == Moved(After(s, moves[..1]), moves[1]);
  }

  lemma SixMoves(s: Switches, moves: seq<Move>)
    requires |moves| == 6
    ensures After(s, moves)
            == Moved(Moved(Moved(Moved(Moved(Moved(s, moves[0]), moves[1]), moves[2]), moves[3]), moves[4]), moves[5])
  {
    assert moves == moves[..3] + moves[3..];
    AfterJoin(s, moves[..3], moves[3..]);
    ThreeMoves(s, moves[..3]);
    ThreeMoves(After(s, moves[..3]), moves[3..]);
  }
}
