/**
 * Every interleaving of the filling producer with any number of getData callers, from the record file to the elements
 * handed out.
 */
module InputRuns {
  import opened Options
  import opened Modular
  import opened RecordStream
  import opened InputRing

  /** A record file and how its values become data. */
  datatype Source<!D> = Source(file: seq<Record>, deserialize: string -> D)

  function Datum<D>(src: Source<D>, k: nat): D
    requires DataCount(src.file) >= 1
  {
    src.deserialize(Nth(src.file, k))
  }

  /** The producer is between rounds, or fills slot j of the n it saw free, outside the lock. */
  datatype Producer = Idle | Filling(n: nat, j: nat)

  /** handed records the elements given out by takes, in order. */
  datatype State<D> = State(pool: Pool<D>, pos: nat, producer: Producer, handed: seq<D>)

  datatype Action = Get(tid: int, peek: bool, blocking: bool) | Snapshot | FillOne | CommitFill

  /** The state addPool leaves: one element read ahead by a fresh reader, the other slots still empty objects. */
  predicate Init<D(==)>(src: Source<D>, s: State<D>) {
    && DataCount(src.file) >= 1
    && s.pool.slots != [] && s.pool == Pool(0, 1, |s.pool.slots| - 1, 1, NO_WAITER, s.pool.slots)
    && s.pool.slots[0] == Datum(src, 0) && s.pos == Advance(1, |src.file|)
    && s.producer == Idle && s.handed == []
  }

  predicate Enabled<D(==)>(src: Source<D>, s: State<D>, a: Action) {
    && RingOk(s.pool) && s.pos < |src.file|
    && match a
       case Get(_, _, _) => true
       case Snapshot => s.producer == Idle && s.pool.remain != 0
       case FillOne => s.producer.Filling? && s.producer.j < s.producer.n <= s.pool.remain
       case CommitFill => s.producer.Filling? && s.producer.j == s.producer.n && 0 < s.producer.n <= s.pool.remain
  }

  /** The element a getData pass returns. */
  function Result<D>(s: State<D>, a: Action): Option<D>
    requires RingOk(s.pool)
  {
    if a.Get? && s.pool.active > 0 then Some(At(s.pool, 0)) else None
  }

  function After<D(==)>(src: Source<D>, s: State<D>, a: Action): State<D>
    requires Enabled(src, s, a)
  {
    match a
    case Get(tid, peek, blocking) =>
      if s.pool.active == 0 then s.(pool := if blocking then Registered(s.pool, tid) else s.pool)
      else if peek then s.(pool := Registered(s.pool, NO_WAITER))
      else s.(pool := Take(s.pool), handed := s.handed + [At(s.pool, 0)])
    case Snapshot => s.(producer := Filling(s.pool.remain, 0))
    case FillOne =>
      s.(pool := Filled(s.pool, s.producer.j, src.deserialize(src.file[s.pos].1)),
         pos := Advance(s.pos, |src.file|),
         producer := Filling(s.producer.n, s.producer.j + 1))
    case CommitFill => s.(pool := Committed(s.pool, s.producer.n), producer := Idle)
  }

  predicate Next<D(==)>(src: Source<D>, s: State<D>, s': State<D>, a: Action) {
    Enabled(src, s, a) && s' == After(src, s, a)
  }

  ghost predicate Run<D>(src: Source<D>, r: seq<State<D>>, acts: seq<Action>) {
    && |r| == |acts| + 1 && Init(src, r[0])
    && forall i :: 0 <= i < |acts| ==> Next(src, r[i], r[i + 1], acts[i])
  }

  function FilledSoFar<D>(s: State<D>): nat {
    if s.producer.Filling? then s.producer.j else 0
  }

  /** Slots up to and beyond the active window hold the data that follow those handed out. */
  ghost predicate Inv<D>(src: Source<D>, s: State<D>) {
    && DataCount(src.file) >= 1 && RingOk(s.pool)
    && (s.producer.Filling? ==> 0 < s.producer.n <= s.pool.remain && s.producer.j <= s.producer.n)
    && s.pos == 1 + (|s.handed| + s.pool.active + FilledSoFar(s)) % DataCount(src.file)
    && (forall i: nat :: i < s.pool.active + FilledSoFar(s) ==> At(s.pool, i) == Datum(src, |s.handed| + i))
    && (forall k :: 0 <= k < |s.handed| ==> s.handed[k] == Datum(src, k))
  }

  lemma InitInv<D>(src: Source<D>, s: State<D>)
    requires Init(src, s)
    ensures Inv(src, s)
  {
    AdvanceCycles(0, |src.file|);
  }

  lemma TakeInv<D>(src: Source<D>, s: State<D>, a: Action)
    requires Inv(src, s) && a.Get? && !a.peek && s.pool.active > 0 && Enabled(src, s, a)
    ensures Inv(src, After(src, s, a))
  {
    var s' := After(src, s, a);
    TakeKeepsRing(s.pool);
    forall i: nat | i < s'.pool.active + FilledSoFar(s') ensures At(s'.pool, i) == Datum(src, |s'.handed| + i) {
      assert At(s'.pool, i) == At(s.pool, i + 1);
    }
  }

  lemma MissOrPeekInv<D>(src: Source<D>, s: State<D>, a: Action)
    requires Inv(src, s) && a.Get? && (a.peek || s.pool.active == 0) && Enabled(src, s, a)
    ensures Inv(src, After(src, s, a))
  {
    var s' := After(src, s, a);
    forall i: nat | i < s'.pool.active + FilledSoFar(s') ensures At(s'.pool, i) == Datum(src, |s'.handed| + i) {
      assert At(s'.pool, i) == At(s.pool, i);
    }
  }

  lemma FillInv<D>(src: Source<D>, s: State<D>)
    requires Inv(src, s) && Enabled(src, s, FillOne)
    ensures Inv(src, After(src, s, FillOne))
  {
    var s' := After(src, s, FillOne);
    var k := |s.handed| + s.pool.active + s.producer.j;
    AdvanceCycles(k, |src.file|);
    assert src.deserialize(src.file[s.pos].1) == Datum(src, k);
    forall i: nat | i < s'.pool.active + FilledSoFar(s') ensures At(s'.pool, i) == Datum(src, |s'.handed| + i) {
      AtAfterFill(s.pool, s.producer.j, Datum(src, k), i);
    }
  }

  lemma StepInv<D>(src: Source<D>, s: State<D>, a: Action)
    requires Inv(src, s) && Enabled(src, s, a)
    ensures Inv(src, After(src, s, a))
  {
    match a {
      case Get(_, peek, _) =>
        if peek || s.pool.active == 0 {
          MissOrPeekInv(src, s, a);
        } else {
          TakeInv(src, s, a);
        }
      case FillOne => FillInv(src, s);
      case Snapshot =>
      case CommitFill =>
        var s' := After(src, s, a);
        CommitKeepsRing(s.pool, s.producer.n);
        forall i: nat | i < s'.pool.active ensures At(s'.pool, i) == At(s.pool, i) {
        }
    }
  }

  lemma {:induction false} RunInv<D>(src: Source<D>, r: seq<State<D>>, acts: seq<Action>, i: nat)
    requires Run(src, r, acts) && i < |r|
    ensures Inv(src, r[i])
  {
    if i == 0 {
      InitInv(src, r[0]);
    } else {
      RunInv(src, r, acts, i - 1);
      assert Next(src, r[i - 1], r[i], acts[i - 1]);
      StepInv(src, r[i - 1], acts[i - 1]);
    }
  }

  /** From file to layer: the k-th element handed out is data record k modulo the number of records. */
  lemma KthElementIsKthRecord<D>(src: Source<D>, r: seq<State<D>>, acts: seq<Action>, i: nat, k: nat)
    requires Run(src, r, acts) && i < |r| && k < |r[i].handed|
    ensures |src.file| > 1 && r[i].handed[k] == src.deserialize(src.file[1 + k % (|src.file| - 1)].1)
  {
    RunInv(src, r, acts, i);
  }

  /** The counts balance, the tail follows the window, and only an empty pool can have a waiter. */
  lemma RingBalance<D>(src: Source<D>, r: seq<State<D>>, acts: seq<Action>, i: nat)
    requires Run(src, r, acts) && i < |r|
    ensures var p := r[i].pool;
            && p.slots != [] && p.active + p.remain == |p.slots| &&
               p.tail % |p.slots| == (p.head + p.active) % |p.slots|
            && (p.waiterTID != NO_WAITER ==> Bounded(p) && Queue(p) == [])
  {
    RunInv(src, r, acts, i);
    RingOkModular(r[i].pool);
  }

  /**
   * While the producer writes a slot outside the lock, that slot is outside the window consumers read, whatever they
   * have taken since the snapshot.
   */
  lemma FillTouchesNoActiveSlot<D>(src: Source<D>, r: seq<State<D>>, acts: seq<Action>, i: nat, m: nat)
    requires Run(src, r, acts) && i < |r| && r[i].producer.Filling? && r[i].producer.j < r[i].producer.n
    requires m < r[i].pool.active
    ensures var p := r[i].pool; p.slots != [] && (p.tail + r[i].producer.j) % |p.slots| != (p.head + m) % |p.slots|
  {
    RunInv(src, r, acts, i);
    FillIndexOutsideWindow(r[i].pool, r[i].producer.j, m);
  }

  /**
   * The ring refines a queue: a take removes its first element, a commit appends the next n data, and nothing else
   * changes it.
   */
  lemma StepRefinesQueue<D>(src: Source<D>, r: seq<State<D>>, acts: seq<Action>, i: nat)
    requires Run(src, r, acts) && i < |acts|
    ensures RingOk(r[i].pool) && RingOk(r[i + 1].pool) && DataCount(src.file) >= 1
    ensures var q, q' := Queue(r[i].pool), Queue(r[i + 1].pool);
            match acts[i]
            case Get(_, peek, _) =>
              if q == [] then Result(r[i], acts[i]) == None && q' == q && r[i + 1].handed == r[i].handed
              else Result(r[i], acts[i]) == Some(q[0]) && q' == (if peek then q else q[1..])
                   && r[i + 1].handed == if peek then r[i].handed else r[i].handed + [q[0]]
            case CommitFill =>
              && r[i + 1].handed == r[i].handed
              && q' == q + seq(r[i].producer.n, m requires 0 <= m => Datum(src, |r[i].handed| + |q| + m))
            case _ => q' == q && r[i + 1].handed == r[i].handed
  {
    RunInv(src, r, acts, i);
    RunInv(src, r, acts, i + 1);
    var s, s' := r[i], r[i + 1];
    assert Next(src, s, s', acts[i]);
    match acts[i] {
      case Get(tid, peek, blocking) =>
        RegisterKeepsQueue(s.pool, tid);
        RegisterKeepsQueue(s.pool, NO_WAITER);
        if s.pool.active > 0 {
          TakeKeepsRing(s.pool);
        }
      case Snapshot =>
      case FillOne => FillKeepsRing(s.pool, s.producer.j, src.deserialize(src.file[s.pos].1));
      case CommitFill =>
        CommitKeepsRing(s.pool, s.producer.n);
    }
  }

  /** A peek returns what the next take will return, however much is filled in between. */
  lemma PeekForetellsTake<D>(src: Source<D>, r: seq<State<D>>, acts: seq<Action>, i: nat, j: nat)
    requires Run(src, r, acts) && i < j < |acts| && |r[i].handed| == |r[j].handed|
    requires RingOk(r[i].pool) && RingOk(r[j].pool)
    requires acts[i].Get? && Result(r[i], acts[i]).Some? && acts[j].Get? && Result(r[j], acts[j]).Some?
    ensures Result(r[i], acts[i]) == Result(r[j], acts[j])
  {
    RunInv(src, r, acts, i);
    RunInv(src, r, acts, j);
  }

  /** A commit clears the registered waiter, whom the source then signals, and leaves elements for it to take. */
  lemma CommitServesWaiter<D>(src: Source<D>, r: seq<State<D>>, acts: seq<Action>, i: nat)
    requires Run(src, r, acts) && i < |acts| && acts[i] == CommitFill
    ensures r[i + 1].pool.waiterTID == NO_WAITER && r[i + 1].pool.active > 0
    ensures r[i].pool.waiterTID != NO_WAITER ==> r[i].pool.active == 0 && r[i + 1].pool.active == r[i].producer.n
  {
    RunInv(src, r, acts, i);
    assert Next(src, r[i], r[i + 1], acts[i]);
  }

  /** A getData pass that finds the pool empty and is to block. */
  predicate BlockingMiss<D>(s: State<D>, a: Action) {
    a.Get? && a.blocking && s.pool.active == 0
  }

  /** Neither a commit nor a pass that is to block happens between steps i and j. */
  predicate QuietBetween(acts: seq<Action>, i: nat, j: nat)
    requires j <= |acts|
  {
    forall k :: i < k < j ==> acts[k] != CommitFill && !(acts[k].Get? && acts[k].blocking)
  }

  /** Whoever misses last before a commit is the one whom that commit finds registered. */
  lemma {:induction false} MissStaysRegistered<D>(src: Source<D>, r: seq<State<D>>, acts: seq<Action>, i: nat, j: nat)
    requires Run(src, r, acts) && i < j < |r| && BlockingMiss(r[i], acts[i]) && QuietBetween(acts, i, j)
    ensures r[j].pool.waiterTID == acts[i].tid && r[j].pool.active == 0
  {
    assert Next(src, r[j - 1], r[j], acts[j - 1]);
    if i + 1 < j {
      MissStaysRegistered(src, r, acts, i, j - 1);
    }
  }

  /** The next commit after a blocking miss clears and signals the caller, if no other caller was to block meanwhile. */
  lemma CommitSignalsLastMiss<D>(src: Source<D>, r: seq<State<D>>, acts: seq<Action>, i: nat, j: nat)
    requires Run(src, r, acts) && i < j < |acts| && BlockingMiss(r[i], acts[i]) && QuietBetween(acts, i, j)
    requires acts[j] == CommitFill
    ensures r[j].pool.waiterTID == acts[i].tid
    ensures r[j + 1].pool.waiterTID == NO_WAITER && r[j + 1].pool.active == r[j].producer.n > 0
  {
    MissStaysRegistered(src, r, acts, i, j);
    RunInv(src, r, acts, j);
    assert Next(src, r[j], r[j + 1], acts[j]);
  }

  /** A second caller that is to block takes the place of the first, whom the commit then does not find. */
  lemma SecondMissReplacesFirst<D>(src: Source<D>, r: seq<State<D>>, acts: seq<Action>, i: nat, m: nat, j: nat)
    requires Run(src, r, acts) && i < m < j < |acts| && acts[j] == CommitFill
    requires BlockingMiss(r[i], acts[i]) && QuietBetween(acts, i, m)
    requires acts[m].Get? && acts[m].blocking && QuietBetween(acts, m, j)
    ensures r[j].pool.waiterTID == acts[m].tid
    ensures acts[i].tid == r[j].pool.waiterTID <==> acts[i].tid == acts[m].tid
  {
    MissStaysRegistered(src, r, acts, i, m);
    CommitSignalsLastMiss(src, r, acts, m, j);
  }
}
