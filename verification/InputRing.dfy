/** The ring of input elements: its fields, and the regions of getData and handler that change them. */
module InputRing {
  import opened Options
  import opened Modular
  import opened RecordStream

  datatype Pool<D> = Pool(head: nat, tail: nat, remain: int, active: int, waiterTID: int, slots: seq<D>)

  const NO_WAITER := -1

  /** a % n for an a up to 2 * n, which is all the ring ever computes. */
  function Wrap(a: nat, n: nat): (r: nat)
    requires a <= 2 * n && n > 0
    ensures r == a % n
  {
    if a < n then a else if a < 2 * n then
      assert a % n == a - n by { DivModUnique(a, n, 1, a - n); }
      a - n
    else
      assert a % n == 0 by { DivModUnique(a, n, 2, 0); }
      0
  }

  /** Head and tail name slots; only a ring of one slot starts with its tail one past the end. */
  predicate Bounded<D>(p: Pool<D>) {
    p.head < |p.slots| && p.tail <= |p.slots| && 0 <= p.active && 0 <= p.remain && p.active + p.remain == |p.slots|
  }

  predicate RingOk<D>(p: Pool<D>) {
    && Bounded(p)
    && (p.tail == |p.slots| ==> |p.slots| == 1)
    && (p.tail == p.head + p.active || p.tail == p.head + p.active - |p.slots| ||
       p.tail == p.head + p.active + |p.slots|)
    && (p.waiterTID != NO_WAITER ==> p.active == 0)
  }

  /** In the terms of the source: active + remain == elemCnt, and tail is head + active modulo elemCnt. */
  lemma {:induction false} RingOkModular<D>(p: Pool<D>)
    requires RingOk(p)
    ensures p.active + p.remain == |p.slots| && p.tail % |p.slots| == (p.head + p.active) % |p.slots|
  {
    AddModulus(p.tail, |p.slots|);
    AddModulus(p.head + p.active, |p.slots|);
  }

  function Take<D>(p: Pool<D>): Pool<D>
    requires Bounded(p)
  {
    p.(head := Wrap(p.head + 1, |p.slots|), active := p.active - 1, remain := p.remain + 1, waiterTID := NO_WAITER)
  }

  /** getData leaves the caller's thread in the pool on a miss, and clears it on a hit. */
  function Registered<D>(p: Pool<D>, tid: int): Pool<D> {
    p.(waiterTID := tid)
  }

  function FillIndex<D>(p: Pool<D>, j: nat): nat
    requires RingOk(p) && j < p.remain
  {
    Wrap(p.tail + j, |p.slots|)
  }

  function Filled<D>(p: Pool<D>, j: nat, d: D): Pool<D>
    requires RingOk(p) && j < p.remain
  {
    p.(slots := p.slots[FillIndex(p, j) := d])
  }

  function Committed<D>(p: Pool<D>, n: nat): Pool<D>
    requires RingOk(p) && 0 < n <= p.remain
  {
    p.(remain := p.remain - n, active := p.active + n, tail := Wrap(p.tail + n, |p.slots|), waiterTID := NO_WAITER)
  }

  /** The element i places behind the head. */
  function At<D>(p: Pool<D>, i: nat): D
    requires Bounded(p) && i < |p.slots|
  {
    p.slots[Wrap(p.head + i, |p.slots|)]
  }

  /** The queue that the ring stands for. */
  function Queue<D>(p: Pool<D>): seq<D>
    requires Bounded(p)
  {
    seq(p.active, i requires 0 <= i < p.active => At(p, i))
  }

  /** A slot that is being filled lies outside the window that consumers may take from. */
  lemma FillIndexOutsideWindow<D>(p: Pool<D>, j: nat, i: nat)
    requires RingOk(p) && j < p.remain && i < p.active + j
    ensures FillIndex(p, j) != Wrap(p.head + i, |p.slots|)
  {
  }

  lemma AtAfterFill<D>(p: Pool<D>, j: nat, d: D, i: nat)
    requires RingOk(p) && j < p.remain && i <= p.active + j
    ensures At(Filled(p, j, d), i) == if i == p.active + j then d else At(p, i)
  {
  }

  lemma TakeKeepsRing<D>(p: Pool<D>)
    requires RingOk(p) && p.active > 0
    ensures RingOk(Take(p)) && Queue(p) == [At(p, 0)] + Queue(Take(p))
  {
    forall i: nat | i < p.active - 1 ensures At(Take(p), i) == At(p, i + 1) {
    }
  }

  lemma RegisterKeepsQueue<D>(p: Pool<D>, tid: int)
    requires RingOk(p)
    ensures Queue(Registered(p, tid)) == Queue(p) && (tid == NO_WAITER || p.active == 0 ==> RingOk(Registered(p, tid)))
  {
    forall i: nat | i < p.active ensures At(Registered(p, tid), i) == At(p, i) {
    }
  }

  lemma FillKeepsRing<D>(p: Pool<D>, j: nat, d: D)
    requires RingOk(p) && j < p.remain
    ensures RingOk(Filled(p, j, d)) && Queue(Filled(p, j, d)) == Queue(p)
  {
    forall i: nat | i < p.active ensures At(Filled(p, j, d), i) == At(p, i) {
      AtAfterFill(p, j, d, i);
    }
  }

  lemma CommitKeepsRing<D>(p: Pool<D>, n: nat)
    requires RingOk(p) && 0 < n <= p.remain
    ensures RingOk(Committed(p, n))
    ensures forall i: nat :: i < p.active + n ==> Queue(Committed(p, n))[i] == At(p, i)
  {
    forall i: nat | i < p.active + n ensures At(Committed(p, n), i) == At(p, i) {
    }
  }

  /** p is before, but that the free slots after the window hold the given data. */
  ghost predicate FilledWith<D>(before: Pool<D>, p: Pool<D>, data: seq<D>) {
    && Bounded(before) && p == before.(slots := p.slots) && |p.slots| == |before.slots| && |data| <= before.remain
    && forall i: nat :: i < before.active + |data| ==>
       At(p, i) == if i < before.active then At(before, i) else data[i - before.active]
  }

  lemma FillMore<D>(before: Pool<D>, p: Pool<D>, data: seq<D>, d: D)
    requires RingOk(p) && FilledWith(before, p, data) && |data| < p.remain
    ensures FilledWith(before, Filled(p, |data|, d), data + [d])
  {
    forall i: nat | i <= p.active + |data|
      ensures At(Filled(p, |data|, d), i) == if i == p.active + |data| then d else At(p, i)
    {
      AtAfterFill(p, |data|, d, i);
    }
  }

  /** Committing what was filled appends it to the queue. */
  lemma CommitAppends<D>(before: Pool<D>, p: Pool<D>, data: seq<D>)
    requires RingOk(p) && FilledWith(before, p, data) && data != []
    ensures RingOk(Committed(p, |data|)) && Queue(Committed(p, |data|)) == Queue(before) + data
  {
    CommitKeepsRing(p, |data|);
    forall i: nat | i < p.active + |data| ensures Queue(Committed(p, |data|))[i] == (Queue(before) + data)[i] {
      assert At(p, i) == if i < before.active then At(before, i) else data[i - before.active];
    }
  }

  /** A pool's ring, what its reader reads, and how many data its reader has delivered. */
  datatype Snapshot<D> = Snapshot(view: Pool<D>, file: seq<Record>, deserialize: string -> D, delivered: nat)

  /** The ring is full, and holds what it held before and then the data that came next. */
  ghost predicate Served<D>(before: Snapshot<D>, now: Snapshot<D>) {
    && RingOk(before.view) && RingOk(now.view) && now.view.remain == 0 && |now.view.slots| == |before.view.slots|
    && now.file == before.file && DataCount(now.file) >= 1 && now.deserialize == before.deserialize
    && now.delivered == before.delivered + before.view.remain
    && Queue(now.view)[..before.view.active] == Queue(before.view)
    && forall j :: before.view.active <= j < |now.view.slots| ==>
         Queue(now.view)[j] == now.deserialize(Nth(now.file, before.delivered + j - before.view.active))
  }

  /** Filling all free slots and committing them serves the pool. */
  lemma FillServes<D>(before: Snapshot<D>, p: Pool<D>, data: seq<D>, now: Snapshot<D>)
    requires RingOk(p) && FilledWith(before.view, p, data) && data != [] && |data| == before.view.remain
    requires RingOk(before.view) && now.view == Committed(p, |data|) && DataCount(now.file) >= 1
    requires now.file == before.file && now.deserialize == before.deserialize
    requires now.delivered == before.delivered + |data|
    requires forall k :: 0 <= k < |data| ==> data[k] == now.deserialize(Nth(now.file, before.delivered + k))
    ensures Served(before, now)
  {
    CommitAppends(before.view, p, data);
  }

  /** The input pool of one layer, with the reader that feeds it. */
  class InputPool<D(0)> {
    var head: nat
    var tail: nat
    var remainElemCnt: int
    var activeElemCnt: int
    var waiterTID: int
    const elemArray: array<D>
    const reader: DataReader<D>

    ghost function View(): Pool<D>
      reads this, elemArray
    {
      Pool(head, tail, remainElemCnt, activeElemCnt, waiterTID, elemArray[..])
    }

    ghost predicate Valid()
      reads this, elemArray, reader, reader.db
    {
      RingOk(View()) && reader.Valid() && reader.dataQueue == []
    }

    /** addPool reads one element ahead, for the layer to shape itself by. */
    constructor AddPool(reader: DataReader<D>, elemCnt: nat)
      requires reader.Valid() && reader.dataQueue == [] && elemCnt >= 1
      modifies reader, reader.db`pos
      ensures Valid() && this.reader == reader && fresh(elemArray) && reader.db.file == old(reader.db.file)
      ensures elemArray.Length == elemCnt && waiterTID == NO_WAITER
      ensures Queue(View()) == [old(reader.Stream(reader.delivered))] && reader.delivered == old(reader.delivered) + 1
    {
      head, tail, remainElemCnt, activeElemCnt, waiterTID := 0, 1, elemCnt - 1, 1, NO_WAITER;
      elemArray := new D[elemCnt];
      this.reader := reader;
      new;
      elemArray[0] := reader.FillNextData();
    }

    /** One pass of getData's loop. A miss registers the caller when blocking is configured, and reports no element. */
    method GetData(peek: bool, tid: int, blocking: bool) returns (data: Option<D>)
      requires Valid()
      modifies `head, `activeElemCnt, `remainElemCnt, `waiterTID
      ensures Valid()
      ensures data == if old(Queue(View())) == [] then None else Some(old(Queue(View()))[0])
      ensures Queue(View()) == if data.Some? && !peek then old(Queue(View()))[1..] else old(Queue(View()))
      ensures View() == if data == None then (if blocking then Registered(old(View()), tid) else old(View()))
                        else if peek then Registered(old(View()), NO_WAITER) else Take(old(View()))
      ensures waiterTID == if data.Some? then NO_WAITER else if blocking then tid else old(waiterTID)
    {
      ghost var before := View();
      RegisterKeepsQueue(before, tid);
      RegisterKeepsQueue(before, NO_WAITER);
      if activeElemCnt == 0 {
        if blocking {
          waiterTID := tid;
        }
        return None;
      }
      TakeKeepsRing(before);
      data := Some(elemArray[head]);
      if !peek {
        head := (head + 1) % elemArray.Length;
        activeElemCnt := activeElemCnt - 1;
        remainElemCnt := remainElemCnt + 1;
      }
      waiterTID := NO_WAITER;
      assert View() == if peek then Registered(before, NO_WAITER) else Take(before);
    }

    /** One fillFunc call, made outside the lock. */
    method FillSlot(j: nat)
      requires Valid() && j < remainElemCnt
      modifies elemArray, reader, reader.db`pos
      ensures Valid() && reader.db.file == old(reader.db.file) && reader.delivered == old(reader.delivered) + 1
      ensures View() == Filled(old(View()), j, old(reader.Stream(reader.delivered)))
    {
      ghost var before := View();
      var elemIndex := (tail + j) % elemArray.Length;
      var datum := reader.FillNextData();
      elemArray[elemIndex] := datum;
      FillKeepsRing(before, j, datum);
      assert View() == Filled(before, j, datum);
    }

    /** The closing lock region of a fill; the waiter found there is the thread to signal. */
    method Commit(filled: nat) returns (waiter: int)
      requires Valid() && 0 < filled <= remainElemCnt
      modifies `tail, `activeElemCnt, `remainElemCnt, `waiterTID
      ensures Valid() && View() == Committed(old(View()), filled)
      ensures waiter == old(waiterTID) && waiterTID == NO_WAITER
      ensures activeElemCnt == old(activeElemCnt) + filled && remainElemCnt == old(remainElemCnt) - filled
    {
      CommitKeepsRing(View(), filled);
      remainElemCnt := remainElemCnt - filled;
      activeElemCnt := activeElemCnt + filled;
      tail := (tail + filled) % elemArray.Length;
      waiter := waiterTID;
      waiterTID := NO_WAITER;
    }

    /** The fill loop of the handler, outside the lock: n free slots take the next n data. */
    method FillSlots(n: nat) returns (ghost data: seq<D>)
      requires Valid() && n <= remainElemCnt
      modifies elemArray, reader, reader.db`pos
      ensures Valid() && reader.db.file == old(reader.db.file) && reader.delivered == old(reader.delivered) + n
      ensures |data| == n && FilledWith(old(View()), View(), data)
      ensures forall k :: 0 <= k < n ==> data[k] == reader.Stream(old(reader.delivered) + k)
    {
      ghost var before, delivered := View(), reader.delivered;
      data := [];
      for j := 0 to n
        invariant Valid() && reader.db.file == old(reader.db.file) && reader.delivered == delivered + j
        invariant |data| == j && FilledWith(before, View(), data)
        invariant forall k :: 0 <= k < j ==> data[k] == reader.Stream(delivered + k)
      {
        ghost var d := reader.Stream(reader.delivered);
        FillMore(before, View(), data, d);
        FillSlot(j);
        data := data + [d];
      }
    }

    ghost function Now(): Snapshot<D>
      reads this, elemArray, reader, reader.db
    {
      Snapshot(View(), reader.db.file, reader.deserialize, reader.delivered)
    }

    /** One round of the handler on a pool that nobody takes from meanwhile. */
    method FillPass() returns (waiter: int)
      requires Valid() && remainElemCnt > 0
      modifies this, elemArray, reader, reader.db`pos
      ensures Valid() && Served(old(Now()), Now()) && waiter == old(waiterTID)
    {
      ghost var before := Now();
      var n := remainElemCnt;
      ghost var data := FillSlots(n);
      ghost var filled := View();
      waiter := Commit(n);
      FillServes(before, filled, data, Now());
    }

    ghost predicate IsAt(at: Snapshot<D>)
      reads this, elemArray, reader, reader.db
    {
      Valid() && Now() == at
    }

    /** What the handler does with one pool in a round; a pool without a free slot is passed over. */
    method Serve() returns (progress: bool)
      requires Valid()
      modifies this, elemArray, reader, reader.db`pos
      ensures Valid() && Served(old(Now()), Now()) && (progress <==> old(remainElemCnt) != 0)
    {
      progress := remainElemCnt != 0;
      if progress {
        var waiter := FillPass();
      }
    }
  }

  /** Each pool has its own ring and its own reader. */
  ghost predicate Separate<D(0)>(pools: seq<InputPool<D>>) {
    forall i, j :: 0 <= i < |pools| && 0 <= j < |pools| && i != j ==>
      && pools[i] != pools[j] && pools[i].elemArray != pools[j].elemArray
      && pools[i].reader != pools[j].reader && pools[i].reader.db != pools[j].reader.db
  }

  ghost predicate AllAt<D(0)>(pools: seq<InputPool<D>>, at: seq<Snapshot<D>>)
    requires |at| == |pools|
    reads pools, set p | p in pools :: p.elemArray, set p | p in pools :: p.reader, set p | p in pools :: p.reader.db
  {
    forall k :: 0 <= k < |pools| ==> pools[k].IsAt(at[k])
  }

  ghost function Snapshots<D(0)>(pools: seq<InputPool<D>>): (at: seq<Snapshot<D>>)
    reads pools, set p | p in pools :: p.elemArray, set p | p in pools :: p.reader, set p | p in pools :: p.reader.db
    ensures |at| == |pools| && forall k :: 0 <= k < |pools| ==> at[k] == pools[k].Now()
  {
    if pools == [] then [] else Snapshots(pools[..|pools| - 1]) + [pools[|pools| - 1].Now()]
  }

  /** Serving one pool leaves the others as they are. */
  method ServeOne<D(0)>(pools: seq<InputPool<D>>, i: nat, ghost at: seq<Snapshot<D>>)
    returns (progress: bool, ghost now: seq<Snapshot<D>>)
    requires Separate(pools) && i < |pools| == |at| && AllAt(pools, at)
    modifies pools[i], pools[i].elemArray, pools[i].reader, pools[i].reader.db
    ensures |now| == |pools| && now == at[i := now[i]] && AllAt(pools, now) && Served(at[i], now[i])
    ensures progress <==> at[i].view.remain != 0
  {
    assert pools[i].IsAt(at[i]);
    progress := pools[i].Serve();
    now := at[i := pools[i].Now()];
  }

  /** Where a round is: the first i pools have been served, and the others are as before. */
  ghost predicate RoundAt<D>(before: seq<Snapshot<D>>, now: seq<Snapshot<D>>, i: nat) {
    && |now| == |before| && (forall k :: 0 <= k < i && k < |now| ==> Served(before[k], now[k]))
    && forall k :: i <= k < |now| ==> now[k] == before[k]
  }

  lemma RoundMore<D>(before: seq<Snapshot<D>>, last: seq<Snapshot<D>>, now: seq<Snapshot<D>>, i: nat)
    requires i < |last| == |now| && RoundAt(before, last, i) && now == last[i := now[i]] && Served(last[i], now[i])
    ensures RoundAt(before, now, i + 1)
  {
  }

  /** One round over all pools; it reports whether any of them had a free slot. */
  method Round<D(0)>(pools: seq<InputPool<D>>, ghost before: seq<Snapshot<D>>)
    returns (hasProgress: bool, ghost now: seq<Snapshot<D>>)
    requires Separate(pools) && |before| == |pools| && AllAt(pools, before)
    modifies pools, set p | p in pools :: p.elemArray, set p | p in pools :: p.reader, set p | p in pools :: p.reader.db
    ensures |now| == |pools| && AllAt(pools, now)
    ensures forall k :: 0 <= k < |pools| ==> Served(before[k], now[k])
    ensures hasProgress <==> exists k :: 0 <= k < |pools| && before[k].view.remain != 0
  {
    hasProgress := false;
    now := before;
    for i := 0 to |pools|
      invariant |now| == |pools| && AllAt(pools, now) && RoundAt(before, now, i)
      invariant hasProgress <==> exists k :: 0 <= k < i && before[k].view.remain != 0
    {
      ghost var last := now;
      var progress;
      progress, now := ServeOne(pools, i, last);
      RoundMore(before, last, now, i);
      hasProgress := hasProgress || progress;
    }
  }

  /** A full pool is left as it is by another round. */
  lemma ServedTwice<D>(before: Snapshot<D>, now: Snapshot<D>, later: Snapshot<D>)
    requires Served(before, now) && Served(now, later)
    ensures Served(before, later)
  {
    assert Queue(later.view)[..now.view.active] == Queue(later.view);
  }

  /** The handler goes round the pools until none has a free slot, and fills every ring with the next data in order. */
  method Handler<D(0)>(pools: seq<InputPool<D>>)
    requires Separate(pools) && forall k :: 0 <= k < |pools| ==> pools[k].Valid()
    modifies pools, set p | p in pools :: p.elemArray, set p | p in pools :: p.reader, set p | p in pools :: p.reader.db
    ensures forall k :: 0 <= k < |pools| ==> pools[k].Valid() && Served(old(pools[k].Now()), pools[k].Now())
  {
    ghost var before := Snapshots(pools);
    ghost var now, full := before, false;
    var hasProgress := true;
    while hasProgress
      invariant |now| == |pools| && AllAt(pools, now)
      invariant if full then forall k :: 0 <= k < |pools| ==> Served(before[k], now[k])
                else now == before && hasProgress
      decreases !full, hasProgress
    {
      ghost var last := now;
      hasProgress, now := Round(pools, last);
      if full {
        forall k | 0 <= k < |pools| ensures Served(before[k], now[k]) {
          ServedTwice(before[k], last[k], now[k]);
        }
      }
      full := true;
    }
    assert forall k :: 0 <= k < |pools| ==> pools[k].IsAt(now[k]);
  }
}
