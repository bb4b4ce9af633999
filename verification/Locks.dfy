/** The session locks: one mutex per conversation key, in a map whose entries are counted in and dropped
    when the last user leaves. Every critical section and every mutex operation is one atomic step. */
module Locks {
  import opened Wrappers

  type OpId = nat
  type LockId = nat

  /** A `refLock`, under the key it was created for. */
  datatype RefLock = RefLock(key: string, refs: int, holder: Option<OpId>)

  /** `locks` maps keys to allocated locks; `heap` holds every lock ever allocated, below `next`.
      Unlocking a mutex nobody holds is fatal in Go: it sets `panicked`. */
  datatype Table = Table(locks: map<string, LockId>, heap: map<LockId, RefLock>, next: LockId, panicked: bool)

  const EMPTY_TABLE := Table(map[], map[], 0, false)

  /** First section of `lock`: find or create the entry and count in. */
  function Entered(t: Table, key: string): Table
    requires key in t.locks ==> t.locks[key] in t.heap
  {
    if key in t.locks then
      var l := t.locks[key];
      t.(heap := t.heap[l := t.heap[l].(refs := t.heap[l].refs + 1)])
    else
      t.(locks := t.locks[key := t.next], heap := t.heap[t.next := RefLock(key, 1, None)], next := t.next + 1)
  }

  /** `rl.mu.Lock()`, once it gets through. */
  function Acquired(t: Table, l: LockId, op: OpId): Table
    requires l in t.heap
  {
    t.(heap := t.heap[l := t.heap[l].(holder := Some(op))])
  }

  /** `rl.mu.Unlock()`. */
  function Released(t: Table, l: LockId): Table
    requires l in t.heap
  {
    t.(heap := t.heap[l := t.heap[l].(holder := None)], panicked := t.panicked || t.heap[l].holder.None?)
  }

  /** Last section of `unlock`: count out and drop the entry with the last user. */
  function Dropped(t: Table, key: string, l: LockId): Table
    requires l in t.heap
  {
    var refs := t.heap[l].refs - 1;
    t.(heap := t.heap[l := t.heap[l].(refs := refs)], locks := if refs <= 0 then t.locks - {key} else t.locks)
  }

  /** The manager's sections as methods. */
  class SessionManager {
    var locks: map<string, LockId>
    var heap: map<LockId, RefLock>
    var next: LockId
    var panicked: bool

    function State(): Table
      reads this
    {
      Table(locks, heap, next, panicked)
    }

    constructor ()
      ensures State() == EMPTY_TABLE
    {
      locks, heap, next, panicked := map[], map[], 0, false;
    }

    method EnterSection(key: string) returns (rl: LockId)
      requires key in locks ==> locks[key] in heap
      modifies this
      ensures State() == Entered(old(State()), key)
      ensures key in locks && locks[key] == rl
    {
      if key !in locks {
        heap := heap[next := RefLock(key, 0, None)];
        locks := locks[key := next];
        next := next + 1;
        assert old(heap)[old(next) := RefLock(key, 0, None)][old(next) := RefLock(key, 1, None)]
            == old(heap)[old(next) := RefLock(key, 1, None)];
      }
      rl := locks[key];
      heap := heap[rl := heap[rl].(refs := heap[rl].refs + 1)];
    }

    method LookupSection(key: string) returns (rl: Option<LockId>)
      ensures rl == if key in locks then Some(locks[key]) else None
    {
      rl := if key in locks then Some(locks[key]) else None;
    }

    method UnlockMutex(rl: LockId)
      requires rl in heap
      modifies this
      ensures State() == Released(old(State()), rl)
    {
      if heap[rl].holder.None? {
        panicked := true;
      }
      heap := heap[rl := heap[rl].(holder := None)];
    }

    method DropSection(key: string, rl: LockId)
      requires rl in heap
      modifies this
      ensures State() == Dropped(old(State()), key, rl)
    {
      heap := heap[rl := heap[rl].(refs := heap[rl].refs - 1)];
      if heap[rl].refs <= 0 {
        locks := locks - {key};
      }
    }

    /** `unlock`, when nobody else moves in between. */
    method UnlockAlone(key: string)
      requires key in locks ==> locks[key] in heap
      modifies this
      ensures State() == UnlockedAlone(old(State()), key)
    {
      var rl := LookupSection(key);
      if rl.None? {
        return;
      }
      UnlockMutex(rl.value);
      DropSection(key, rl.value);
    }
  }

  /** The three parts of `unlock` on end. */
  function UnlockedAlone(t: Table, key: string): Table
    requires key in t.locks ==> t.locks[key] in t.heap
  {
    if key in t.locks then Dropped(Released(t, t.locks[key]), key, t.locks[key]) else t
  }

  /** An operation alone on its key leaves the map as it found it, and no mutex held. */
  lemma AloneRestores(t: Table, key: string, op: OpId)
    requires key !in t.locks && t.next !in t.heap
    ensures var u := Acquired(Entered(t, key), t.next, op);
            UnlockedAlone(u, key).locks == t.locks && UnlockedAlone(u, key).panicked == t.panicked
  {
    assert t.locks[key := t.next] - {key} == t.locks;
  }

  // ----- operations, as program counters -----

  /** Where an operation stands between `lock` and `unlock`; `lock` is the mutex it counted into, `found`
      the one `unlock` looked up, `work` what it is doing while it holds the lock. */
  datatype Phase<W> =
    | Waiting(key: string, lock: LockId, work: W)
    | Held(key: string, lock: LockId, work: W)
    | Leaving(key: string, lock: LockId, found: LockId)
    | Unlocked(key: string, lock: LockId)
    | Finished

  datatype State<W> = State(table: Table, ops: map<OpId, Phase<W>>)

  datatype Step<W> =
    | Enter(op: OpId, key: string, work: W)
    | Acquire(op: OpId)
    | Progress(op: OpId, work: W)
    | Lookup(op: OpId)
    | Unlock(op: OpId)
    | Drop(op: OpId)

  predicate Enabled<W>(s: State<W>, step: Step<W>) {
    match step
    case Enter(op, key, _) => op !in s.ops && (key in s.table.locks ==> s.table.locks[key] in s.table.heap)
    case Acquire(op) => op in s.ops && s.ops[op].Waiting? && s.ops[op].lock in s.table.heap
        && s.table.heap[s.ops[op].lock].holder.None?
    case Progress(op, _) => op in s.ops && s.ops[op].Held?
    case Lookup(op) => op in s.ops && s.ops[op].Held?
    case Unlock(op) => op in s.ops && s.ops[op].Leaving? && s.ops[op].found in s.table.heap
    case Drop(op) => op in s.ops && s.ops[op].Unlocked? && s.ops[op].lock in s.table.heap
  }

  function Apply<W>(s: State<W>, step: Step<W>): State<W>
    requires Enabled(s, step)
  {
    match step
    case Enter(op, key, work) =>
      var t := Entered(s.table, key);
      State(t, s.ops[op := Waiting(key, t.locks[key], work)])
    case Acquire(op) =>
      var p := s.ops[op];
      State(Acquired(s.table, p.lock, op), s.ops[op := Held(p.key, p.lock, p.work)])
    case Progress(op, work) => s.(ops := s.ops[op := s.ops[op].(work := work)])
    case Lookup(op) =>
      var p := s.ops[op];
      s.(ops := s.ops[op := if p.key in s.table.locks then Leaving(p.key, p.lock, s.table.locks[p.key]) else Finished])
    case Unlock(op) =>
      var p := s.ops[op];
      State(Released(s.table, p.found), s.ops[op := Unlocked(p.key, p.found)])
    case Drop(op) =>
      var p := s.ops[op];
      State(Dropped(s.table, p.key, p.lock), s.ops[op := Finished])
  }

  // ----- the invariant -----

  predicate At<W>(p: Phase<W>, l: LockId) {
    !p.Finished? && p.lock == l
  }

  predicate Holds<W>(p: Phase<W>, l: LockId) {
    (p.Held? || p.Leaving?) && p.lock == l
  }

  /** The operations between counting in and counting out of a lock. */
  function Users<W>(ops: map<OpId, Phase<W>>, l: LockId): set<OpId> {
    set op | op in ops && At(ops[op], l)
  }

  /** The entry of a key is the one lock of that key with users. */
  ghost predicate TableOk(t: Table) {
    && (forall k :: k in t.locks ==> t.locks[k] in t.heap && t.heap[t.locks[k]].key == k && t.heap[t.locks[k]].refs > 0)
    && (forall l :: l in t.heap ==> l < t.next)
    && (forall l :: l in t.heap && t.heap[l].refs > 0 ==> t.heap[l].key in t.locks && t.locks[t.heap[l].key] == l)
    && !t.panicked
  }

  ghost predicate OpsOk<W>(t: Table, ops: map<OpId, Phase<W>>) {
    forall op :: op in ops && !ops[op].Finished? ==>
      && ops[op].lock in t.heap && t.heap[ops[op].lock].key == ops[op].key
      && (ops[op].Leaving? ==> ops[op].found == ops[op].lock)
  }

  ghost predicate RefsOk<W>(t: Table, ops: map<OpId, Phase<W>>) {
    forall l :: l in t.heap ==> t.heap[l].refs == |Users(ops, l)|
  }

  ghost predicate HolderOk<W>(t: Table, ops: map<OpId, Phase<W>>) {
    && (forall l, op :: l in t.heap && t.heap[l].holder == Some(op) ==> op in ops && Holds(ops[op], l))
    && (forall op :: op in ops && (ops[op].Held? || ops[op].Leaving?) && ops[op].lock in t.heap ==>
          t.heap[ops[op].lock].holder == Some(op))
  }

  ghost predicate Inv<W>(s: State<W>) {
    TableOk(s.table) && OpsOk(s.table, s.ops) && RefsOk(s.table, s.ops) && HolderOk(s.table, s.ops)
  }

  /** An operation that counted in and not out keeps its lock in the map. */
  lemma UserKeepsEntry<W>(s: State<W>, op: OpId)
    requires Inv(s) && op in s.ops && !s.ops[op].Finished?
    ensures s.ops[op].key in s.table.locks && s.table.locks[s.ops[op].key] == s.ops[op].lock
    ensures s.table.heap[s.ops[op].lock].refs > 0
  {
    var l := s.ops[op].lock;
    assert op in Users(s.ops, l);
    assert Users(s.ops, l) != {};
  }

  /** Counting one operation in or out of a lock, or moving it without leaving. */
  lemma UsersChange<W>(ops: map<OpId, Phase<W>>, op: OpId, p: Phase<W>, l: LockId)
    ensures var was, now := op in ops && At(ops[op], l), At(p, l);
            |Users(ops[op := p], l)| == |Users(ops, l)| + (if now then 1 else 0) - (if was then 1 else 0)
  {
    var rest := Users(ops, l) - {op};
    assert Users(ops[op := p], l) == if At(p, l) then rest + {op} else rest;
    assert Users(ops, l) == if op in ops && At(ops[op], l) then rest + {op} else rest;
  }

  lemma TableEnter(t: Table, key: string)
    requires TableOk(t)
    ensures TableOk(Entered(t, key))
  {
  }

  lemma TableDrop(t: Table, key: string, l: LockId)
    requires TableOk(t) && key in t.locks && t.locks[key] == l
    ensures TableOk(Dropped(t, key, l))
  {
  }

  lemma TableStep<W>(s: State<W>, step: Step<W>, t: State<W>)
    requires Inv(s) && Enabled(s, step) && t == Apply(s, step)
    ensures TableOk(t.table)
  {
    match step
    case Enter(_, key, _) => TableEnter(s.table, key);
    case Drop(op) =>
      UserKeepsEntry(s, op);
      TableDrop(s.table, s.ops[op].key, s.ops[op].lock);
    case _ => UserKeepsEntry(s, step.op);
  }

  lemma OpsStep<W>(s: State<W>, step: Step<W>, t: State<W>)
    requires Inv(s) && Enabled(s, step) && t == Apply(s, step)
    ensures OpsOk(t.table, t.ops)
  {
    if step.Lookup? {
      UserKeepsEntry(s, step.op);
    }
  }

  lemma RefsStep<W>(s: State<W>, step: Step<W>, t: State<W>)
    requires Inv(s) && Enabled(s, step) && t == Apply(s, step)
    ensures RefsOk(t.table, t.ops)
  {
    if step.Lookup? {
      UserKeepsEntry(s, step.op);
    }
    forall l | l in t.table.heap
      ensures t.table.heap[l].refs == |Users(t.ops, l)|
    {
      UsersChange(s.ops, step.op, t.ops[step.op], l);
      if l !in s.table.heap {
        assert Users(s.ops, l) == {};
      }
    }
  }

  lemma HolderCounted<W>(s: State<W>, step: Step<W>, t: State<W>)
    requires Inv(s) && Enabled(s, step) && t == Apply(s, step) && (step.Enter? || step.Drop?)
    ensures HolderOk(t.table, t.ops)
  {
  }

  /** Steps that leave every mutex alone. */
  lemma HolderStays<W>(s: State<W>, step: Step<W>, t: State<W>)
    requires Inv(s) && Enabled(s, step) && t == Apply(s, step) && !step.Acquire? && !step.Unlock?
    ensures HolderOk(t.table, t.ops)
  {
    if step.Enter? || step.Drop? {
      HolderCounted(s, step, t);
    } else if step.Lookup? {
      UserKeepsEntry(s, step.op);
    }
  }

  lemma HolderMoves<W>(s: State<W>, step: Step<W>, t: State<W>)
    requires Inv(s) && Enabled(s, step) && t == Apply(s, step) && (step.Acquire? || step.Unlock?)
    ensures HolderOk(t.table, t.ops)
  {
  }

  lemma HolderStep<W>(s: State<W>, step: Step<W>, t: State<W>)
    requires Inv(s) && Enabled(s, step) && t == Apply(s, step)
    ensures HolderOk(t.table, t.ops)
  {
    if step.Acquire? || step.Unlock? {
      HolderMoves(s, step, t);
    } else {
      HolderStays(s, step, t);
    }
  }

  lemma StepInv<W>(s: State<W>, step: Step<W>, t: State<W>)
    requires Inv(s) && Enabled(s, step) && t == Apply(s, step)
    ensures Inv(t)
  {
    TableStep(s, step, t);
    OpsStep(s, step, t);
    RefsStep(s, step, t);
    HolderStep(s, step, t);
  }

  /** At most one operation is inside a key's lock. */
  lemma MutualExclusion<W>(s: State<W>, a: OpId, b: OpId)
    requires Inv(s) && a in s.ops && b in s.ops
    requires (s.ops[a].Held? || s.ops[a].Leaving?) && (s.ops[b].Held? || s.ops[b].Leaving?)
        && s.ops[a].key == s.ops[b].key
    ensures a == b
  {
    UserKeepsEntry(s, a);
    UserKeepsEntry(s, b);
  }

  /** The map has an entry for exactly the keys in use, so it is empty once every operation is finished;
      each count is the number of users; and no mutex was unlocked that nobody held. */
  lemma EntriesAreUsed<W>(s: State<W>)
    requires Inv(s)
    ensures forall k :: k in s.table.locks <==> exists op :: op in s.ops && !s.ops[op].Finished? && s.ops[op].key == k
    ensures (forall op :: op in s.ops ==> s.ops[op].Finished?) ==> s.table.locks == map[]
    ensures forall k :: k in s.table.locks ==> s.table.heap[s.table.locks[k]].refs == |Users(s.ops, s.table.locks[k])|
    ensures !s.table.panicked
  {
    forall k | k in s.table.locks
      ensures exists op :: op in s.ops && !s.ops[op].Finished? && s.ops[op].key == k
    {
      var l := s.table.locks[k];
      assert |Users(s.ops, l)| > 0;
      var op :| op in Users(s.ops, l);
      assert s.ops[op].key == k;
    }
    forall op | op in s.ops && !s.ops[op].Finished?
      ensures s.ops[op].key in s.table.locks
    {
      UserKeepsEntry(s, op);
    }
    if forall op :: op in s.ops ==> s.ops[op].Finished? {
      assert s.table.locks.Keys == {};
    }
  }

  /** Whoever waits can get in, or somebody holds the lock and is not yet past unlocking it. */
  lemma WaiterIsServed<W>(s: State<W>, op: OpId)
    requires Inv(s) && op in s.ops && s.ops[op].Waiting?
    ensures Enabled(s, Acquire(op)) || exists h :: h in s.ops && Holds(s.ops[h], s.ops[op].lock)
  {
    var l := s.ops[op].lock;
    if s.table.heap[l].holder.Some? {
      assert Holds(s.ops[s.table.heap[l].holder.value], l);
    }
  }

  predicate Runs<W>(s: State<W>, steps: seq<Step<W>>)
    decreases |steps|
  {
    steps == [] || (Enabled(s, steps[0]) && Runs(Apply(s, steps[0]), steps[1..]))
  }

  function Final<W>(s: State<W>, steps: seq<Step<W>>): State<W>
    requires Runs(s, steps)
    decreases |steps|
  {
    if steps == [] then s else Final(Apply(s, steps[0]), steps[1..])
  }

  /** Every interleaving of any operations keeps the invariant. */
  lemma {:induction false} RunInv<W>(s: State<W>, steps: seq<Step<W>>, t: State<W>)
    requires Inv(s) && Runs(s, steps) && t == Final(s, steps)
    ensures Inv(t)
    decreases |steps|
  {
    if steps != [] {
      var u := Apply(s, steps[0]);
      StepInv(s, steps[0], u);
      RunInv(u, steps[1..], t);
    }
  }

  function Fresh<W>(): State<W> {
    State(EMPTY_TABLE, map[])
  }

  lemma FreshInv<W>(s: State<W>)
    requires s == Fresh()
    ensures Inv(s)
  {
  }
}
