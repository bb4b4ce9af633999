/** Conversation logs guarded by the session locks, whatever the operations do inside. `ok` relates an
    operation's work to the log of its conversation, `settled` says a log is fit to be left alone, `ready`
    that work has not begun. */
module Guarded {
  import Locks

  type Relation<-W, -E> = (Locks.OpId, W, seq<E>) -> bool
  type Readiness<-W> = W -> bool
  type Fitness<-E> = seq<E> -> bool

  datatype State<W, E> = State(core: Locks.State<W>, logs: map<string, seq<E>>)

  /** The log of a conversation; a missing conversation has an empty one. */
  function LogOf<W, E>(s: State<W, E>, key: string): seq<E> {
    if key in s.logs then s.logs[key] else []
  }

  predicate WorksOn<W, E>(s: State<W, E>, op: Locks.OpId, key: string) {
    op in s.core.ops && s.core.ops[op].Held? && s.core.ops[op].key == key
  }

  ghost predicate Busy<W, E>(s: State<W, E>, key: string) {
    exists op :: WorksOn(s, op, key)
  }

  ghost predicate Inv<W, E>(s: State<W, E>, ok: Relation<W, E>, ready: Readiness<W>, settled: Fitness<E>) {
    && Locks.Inv(s.core)
    && settled([])
    && (forall op, key :: WorksOn(s, op, key) ==> ok(op, s.core.ops[op].work, LogOf(s, key)))
    && (forall op :: op in s.core.ops && s.core.ops[op].Waiting? ==> ready(s.core.ops[op].work))
    && (forall key :: Busy(s, key) || settled(LogOf(s, key)))
  }

  /** A step of `lock` or `unlock`. */
  function Moved<W, E>(s: State<W, E>, c: Locks.Step<W>): State<W, E>
    requires Locks.Enabled(s.core, c)
  {
    s.(core := Locks.Apply(s.core, c))
  }

  /** A step of the work of an operation: its next work and the next log of its conversation. */
  function Worked<W, E>(s: State<W, E>, op: Locks.OpId, w: W, log: seq<E>): State<W, E>
    requires op in s.core.ops && s.core.ops[op].Held?
  {
    State(Locks.Apply(s.core, Locks.Progress(op, w)), s.logs[s.core.ops[op].key := log])
  }

  /** The lock lets an operation in only when nobody is working on its conversation. */
  lemma AcquireFindsIdle<W, E>(s: State<W, E>, op: Locks.OpId)
    requires Locks.Inv(s.core) && Locks.Enabled(s.core, Locks.Acquire(op))
    ensures !Busy(s, s.core.ops[op].key)
  {
    var t := Locks.Apply(s.core, Locks.Acquire(op));
    Locks.StepInv(s.core, Locks.Acquire(op), t);
    forall h | WorksOn(s, h, s.core.ops[op].key)
      ensures false
    {
      Locks.MutualExclusion(t, h, op);
    }
  }

  /** A lock step changes no log, and only unlocking ends the work on a conversation. */
  lemma MoveSettled<W, E>(s: State<W, E>, c: Locks.Step<W>, t: State<W, E>, settled: Fitness<E>)
    requires Locks.Enabled(s.core, c) && !c.Progress? && t == Moved(s, c)
    requires c.Lookup? ==> settled(LogOf(s, s.core.ops[c.op].key))
    requires forall key :: Busy(s, key) || settled(LogOf(s, key))
    ensures forall key :: LogOf(t, key) == LogOf(s, key) && (Busy(t, key) || settled(LogOf(t, key)))
  {
    forall key
      ensures LogOf(t, key) == LogOf(s, key) && (Busy(t, key) || settled(LogOf(t, key)))
    {
      if Busy(s, key) {
        var op :| WorksOn(s, op, key);
        assert WorksOn(t, op, key) || (c.Lookup? && c.op == op);
      }
    }
  }

  /** Nobody else's work is touched by a lock step. */
  lemma MoveOthers<W>(s: Locks.State<W>, c: Locks.Step<W>, op: Locks.OpId)
    requires Locks.Enabled(s, c) && op != c.op
    ensures op in Locks.Apply(s, c).ops <==> op in s.ops
    ensures op in s.ops ==> Locks.Apply(s, c).ops[op] == s.ops[op]
  {
  }

  /** Entering, acquiring and unlocking keep the logs guarded: work starts on a settled log, and must have
      settled its log before it unlocks. */
  lemma MoveInv<W, E>(s: State<W, E>, c: Locks.Step<W>, t: State<W, E>,
                      ok: Relation<W, E>, ready: Readiness<W>, settled: Fitness<E>)
    requires Inv(s, ok, ready, settled) && Locks.Enabled(s.core, c) && !c.Progress? && t == Moved(s, c)
    requires c.Enter? ==> ready(c.work)
    requires c.Acquire? ==> var p := s.core.ops[c.op]; settled(LogOf(s, p.key)) && ready(p.work) ==>
        ok(c.op, p.work, LogOf(s, p.key))
    requires c.Lookup? ==> settled(LogOf(s, s.core.ops[c.op].key))
    ensures Inv(t, ok, ready, settled)
  {
    Locks.StepInv(s.core, c, t.core);
    MoveSettled(s, c, t, settled);
    if c.Acquire? {
      AcquireFindsIdle(s, c.op);
    }
    forall op, key | WorksOn(t, op, key)
      ensures ok(op, t.core.ops[op].work, LogOf(t, key))
    {
      if op != c.op {
        MoveOthers(s.core, c, op);
        assert WorksOn(s, op, key);
      }
    }
    forall op | op in t.core.ops && t.core.ops[op].Waiting?
      ensures ready(t.core.ops[op].work)
    {
      if op != c.op {
        MoveOthers(s.core, c, op);
      }
    }
  }

  /** Work keeps the logs guarded: it can only touch the log of its own conversation. */
  lemma WorkInv<W, E>(s: State<W, E>, op: Locks.OpId, w: W, log: seq<E>, t: State<W, E>,
                      ok: Relation<W, E>, ready: Readiness<W>, settled: Fitness<E>)
    requires Inv(s, ok, ready, settled) && op in s.core.ops && s.core.ops[op].Held?
    requires ok(op, w, log) && t == Worked(s, op, w, log)
    ensures Inv(t, ok, ready, settled)
  {
    var k := s.core.ops[op].key;
    Locks.StepInv(s.core, Locks.Progress(op, w), t.core);
    forall o, key | WorksOn(t, o, key)
      ensures ok(o, t.core.ops[o].work, LogOf(t, key))
    {
      assert WorksOn(s, o, key);
      if o != op && key == k {
        Locks.MutualExclusion(s.core, o, op);
      }
    }
    forall key
      ensures Busy(t, key) || settled(LogOf(t, key))
    {
      if key == k {
        assert WorksOn(t, op, key);
      } else if Busy(s, key) {
        var o :| WorksOn(s, o, key);
        assert WorksOn(t, o, key);
      }
    }
  }
}
