/** Every interleaving of threads that request tasks and of the task consumers, over one set of pools. */
module TaskRuns {
  import opened Options
  import opened Sequences
  import opened TaskPools

  type ThreadId = nat
  type ConsumerId = nat

  /** A thread that has taken an element and not queued it yet, or that waits for its AllocTensor task. */
  datatype Requester = Ready | Holding(elem: Elem) | Waiting(elem: Elem)

  /** A consumer's queue, the rest of its current batch, and what it keeps for the next pass. */
  datatype Consumer = Consumer(queue: seq<Elem>, batch: seq<Elem>, remain: seq<Elem>)

  /**
   * done holds the AllocTensor elements whose step field says Done; checked tells whether SASSUME0 is compiled in, and
   * aborted whether the server has stopped.
   */
  datatype State = State(
    free: FreeLists,
    threads: map<ThreadId, Requester>,
    consumers: map<ConsumerId, Consumer>,
    done: set<Elem>,
    checked: bool,
    aborted: bool)

  predicate Init(cfg: Config, s: State) {
    && !s.aborted && AllPools(s.free) && (forall t: TaskType :: s.free[t] == seq(cfg.Count(t), i => i))
    && (forall t :: t in s.threads ==> s.threads[t] == Ready)
    && (forall c :: c in s.consumers ==> s.consumers[c] == Consumer([], [], []))
    && s.done == {}
  }

  datatype Action =
    | GetElem(t: ThreadId, taskType: TaskType)
    | Enqueue(t: ThreadId, c: ConsumerId)
    | Release(t: ThreadId)
    | StartPass(c: ConsumerId)
    | Handle(c: ConsumerId, finished: bool)

  predicate Enabled(s: State, a: Action) {
    !s.aborted && AllPools(s.free) &&
    match a
    case GetElem(t, _) => t in s.threads && s.threads[t] == Ready
    case Enqueue(t, c) => t in s.threads && s.threads[t].Holding? && c in s.consumers
    case Release(t) => t in s.threads && s.threads[t].Waiting?
    case StartPass(c) => c in s.consumers && s.consumers[c].batch == []
    case Handle(c, finished) =>
      && c in s.consumers && s.consumers[c].batch != []
      && (finished || MayRemain(s.consumers[c].batch[0].taskType))
  }

  function WithThread(s: State, t: ThreadId, r: Requester): State {
    s.(threads := s.threads[t := r])
  }

  function WithConsumer(s: State, c: ConsumerId, k: Consumer): State {
    s.(consumers := s.consumers[c := k])
  }

  function After(s: State, a: Action): State
    requires Enabled(s, a)
  {
    match a
    case GetElem(t, taskType) =>
      if s.free[taskType] == [] then s.(aborted := true)
      else
        WithThread(s, t, Holding(Elem(taskType, s.free[taskType][0])))
          .(free := s.free[taskType := s.free[taskType][1..]])
    case Enqueue(t, c) =>
      var e, k := s.threads[t].elem, s.consumers[c];
      var s' := WithConsumer(s, c, k.(queue := k.queue + [e]));
      if e.taskType == AllocTensor then WithThread(s', t, Waiting(e)).(done := s.done - {e})
      else WithThread(s', t, Ready)
    case Release(t) =>
      var e := s.threads[t].elem;
      if s.checked && e !in s.done then s.(aborted := true)
      else WithThread(s, t, Ready).(free := Released(s.free, e))
    case StartPass(c) =>
      var k := s.consumers[c];
      WithConsumer(s, c, Consumer([], k.queue + k.remain, []))
    case Handle(c, finished) =>
      var k := s.consumers[c];
      var e := k.batch[0];
      if !finished then WithConsumer(s, c, k.(batch := k.batch[1..], remain := k.remain + [e]))
      else if e.taskType == AllocTensor then WithConsumer(s, c, k.(batch := k.batch[1..])).(done := s.done + {e})
      else WithConsumer(s, c, k.(batch := k.batch[1..])).(free := Released(s.free, e))
  }

  predicate Next(s: State, s': State, a: Action) {
    Enabled(s, a) && s' == After(s, a)
  }

  ghost predicate Run(cfg: Config, r: seq<State>, acts: seq<Action>) {
    && |r| == |acts| + 1 && Init(cfg, r[0])
    && forall i :: 0 <= i < |acts| ==> Next(r[i], r[i + 1], acts[i])
  }

  // ---------- Where an element is ----------

  datatype Place =
    | Free | Taken(t: ThreadId) | InQueue(c: ConsumerId) | InBatch(c: ConsumerId) | InRemain(c: ConsumerId)
    | Returned(t: ThreadId)

  predicate At(s: State, e: Elem, p: Place) {
    match p
    case Free => e.taskType in s.free && e.elemID in s.free[e.taskType]
    case Taken(t) => t in s.threads && s.threads[t] == Holding(e)
    case InQueue(c) => c in s.consumers && e in s.consumers[c].queue
    case InBatch(c) => c in s.consumers && e in s.consumers[c].batch
    case InRemain(c) => c in s.consumers && e in s.consumers[c].remain
    case Returned(t) => t in s.threads && s.threads[t] == Waiting(e) && e in s.done
  }

  /** place says where each element is, requester who will give an AllocTensor element back. */
  datatype Witness = Witness(place: map<Elem, Place>, requester: map<Elem, ThreadId>)

  predicate InFlight(p: Place) {
    p.InQueue? || p.InBatch?
  }

  predicate ElemOk(cfg: Config, s: State, w: Witness, e: Elem) {
    && (cfg.Valid(e) <==> e in w.place)
    && (At(s, e, Free) ==> e in w.place && w.place[e] == Free)
    && (e in w.place ==>
          && At(s, e, w.place[e])
          && (e.taskType == AllocTensor && InFlight(w.place[e]) ==>
                && e !in s.done && e in w.requester && w.requester[e] in s.threads &&
                   s.threads[w.requester[e]] == Waiting(e))
          && (w.place[e].InRemain? ==> MayRemain(e.taskType)))
  }

  predicate ThreadOk(s: State, w: Witness, t: ThreadId)
    requires t in s.threads
  {
    var r := s.threads[t];
    && (r.Holding? ==> r.elem in w.place && w.place[r.elem] == Taken(t))
    && (r.Waiting? ==>
          && r.elem.taskType == AllocTensor && r.elem in w.place && r.elem in w.requester && w.requester[r.elem] == t
          && (w.place[r.elem] == Returned(t) || (InFlight(w.place[r.elem]) && r.elem !in s.done)))
  }

  predicate ConsumerOk(s: State, w: Witness, c: ConsumerId, e: Elem)
    requires c in s.consumers
  {
    && (e in s.consumers[c].queue ==> e in w.place && w.place[e] == InQueue(c))
    && (e in s.consumers[c].batch ==> e in w.place && w.place[e] == InBatch(c))
    && (e in s.consumers[c].remain ==> e in w.place && w.place[e] == InRemain(c))
  }

  predicate NoRepeats(s: State, c: ConsumerId)
    requires c in s.consumers
  {
    Distinct(s.consumers[c].queue) && Distinct(s.consumers[c].batch) && Distinct(s.consumers[c].remain)
  }

  predicate PointOk(cfg: Config, s: State, w: Witness, e: Elem, t: ThreadId, c: ConsumerId) {
    ElemOk(cfg, s, w, e) && (t in s.threads ==> ThreadOk(s, w, t)) && (c in s.consumers ==> ConsumerOk(s, w, c, e))
  }

  ghost predicate Inv(cfg: Config, s: State, w: Witness) {
    && AllPools(s.free) && (forall k: TaskType :: Distinct(s.free[k]))
    && (forall e {:trigger ElemOk(cfg, s, w, e)} :: ElemOk(cfg, s, w, e))
    && (forall t {:trigger ThreadOk(s, w, t)} :: t in s.threads ==> ThreadOk(s, w, t))
    && (forall c, e {:trigger ConsumerOk(s, w, c, e)} :: c in s.consumers ==> ConsumerOk(s, w, c, e))
    && (forall c {:trigger NoRepeats(s, c)} :: c in s.consumers ==> NoRepeats(s, c))
  }

  function NextWitness(s: State, a: Action, w: Witness): Witness
    requires Enabled(s, a)
  {
    match a
    case GetElem(t, taskType) =>
      if s.free[taskType] == [] then w else w.(place := w.place[Elem(taskType, s.free[taskType][0]) := Taken(t)])
    case Enqueue(t, c) =>
      w.(place := w.place[s.threads[t].elem := InQueue(c)], requester := w.requester[s.threads[t].elem := t])
    case Release(t) => if s.threads[t].elem in s.done then w.(place := w.place[s.threads[t].elem := Free]) else w
    case StartPass(c) =>
      var k := s.consumers[c];
      w.(place := map e | e in w.place :: if e in k.queue || e in k.remain then InBatch(c) else w.place[e])
    case Handle(c, finished) =>
      var e := s.consumers[c].batch[0];
      if !finished then w.(place := w.place[e := InRemain(c)])
      else if e.taskType != AllocTensor then w.(place := w.place[e := Free])
      else if e in w.requester then w.(place := w.place[e := Returned(w.requester[e])])
      else w
  }

  /** A requester gives its element back although the consumer has not reported it done. */
  predicate TooEarly(s: State, a: Action) {
    a.Release? && a.t in s.threads && s.threads[a.t].Waiting? && s.threads[a.t].elem !in s.done
  }

  // ---------- One lemma per kind of step ----------

  lemma GetElemKeeps(cfg: Config, s: State, a: Action, w: Witness, e: Elem, t: ThreadId, c: ConsumerId)
    requires a.GetElem? && Enabled(s, a) && PointOk(cfg, s, w, e, t, c) && s.free[a.taskType] != []
    requires ElemOk(cfg, s, w, Elem(a.taskType, s.free[a.taskType][0]))
    requires e.elemID in s.free[a.taskType][1..] <==>
             e.elemID in s.free[a.taskType] && e.elemID != s.free[a.taskType][0]
    ensures PointOk(cfg, After(s, a), NextWitness(s, a, w), e, t, c)
  {
  }

  lemma EnqueueAllocKeeps(cfg: Config, s: State, a: Action, w: Witness, e: Elem, t: ThreadId, c: ConsumerId)
    requires a.Enqueue? && Enabled(s, a) && PointOk(cfg, s, w, e, t, c)
    requires s.threads[a.t].elem.taskType == AllocTensor
    requires ThreadOk(s, w, a.t) && ElemOk(cfg, s, w, s.threads[a.t].elem)
    ensures PointOk(cfg, After(s, a), NextWitness(s, a, w), e, t, c)
  {
  }

  lemma EnqueueOtherKeeps(cfg: Config, s: State, a: Action, w: Witness, e: Elem, t: ThreadId, c: ConsumerId)
    requires a.Enqueue? && Enabled(s, a) && PointOk(cfg, s, w, e, t, c)
    requires s.threads[a.t].elem.taskType != AllocTensor
    requires ThreadOk(s, w, a.t) && ElemOk(cfg, s, w, s.threads[a.t].elem)
    ensures PointOk(cfg, After(s, a), NextWitness(s, a, w), e, t, c)
  {
  }

  lemma ReleaseKeeps(cfg: Config, s: State, a: Action, w: Witness, e: Elem, t: ThreadId, c: ConsumerId)
    requires a.Release? && Enabled(s, a) && !TooEarly(s, a) && PointOk(cfg, s, w, e, t, c)
    requires ThreadOk(s, w, a.t) && ElemOk(cfg, s, w, s.threads[a.t].elem)
    ensures PointOk(cfg, After(s, a), NextWitness(s, a, w), e, t, c)
  {
  }

  lemma StartPassKeeps(cfg: Config, s: State, a: Action, w: Witness, e: Elem, t: ThreadId, c: ConsumerId)
    requires a.StartPass? && Enabled(s, a) && PointOk(cfg, s, w, e, t, c) && ConsumerOk(s, w, a.c, e)
    requires t in s.threads && s.threads[t] != Ready ==> ConsumerOk(s, w, a.c, s.threads[t].elem)
    ensures PointOk(cfg, After(s, a), NextWitness(s, a, w), e, t, c)
  {
  }

  lemma KeepForNextPass(cfg: Config, s: State, a: Action, w: Witness, e: Elem, t: ThreadId, c: ConsumerId)
    requires a.Handle? && !a.finished && Enabled(s, a) && PointOk(cfg, s, w, e, t, c) && ConsumerOk(s, w, a.c, e)
    requires ConsumerOk(s, w, a.c, s.consumers[a.c].batch[0]) && ElemOk(cfg, s, w, s.consumers[a.c].batch[0])
    requires e in s.consumers[a.c].batch[1..] <==> e in s.consumers[a.c].batch && e != s.consumers[a.c].batch[0]
    ensures PointOk(cfg, After(s, a), NextWitness(s, a, w), e, t, c)
  {
  }

  lemma FinishAlloc(cfg: Config, s: State, a: Action, w: Witness, e: Elem, t: ThreadId, c: ConsumerId)
    requires a.Handle? && a.finished && Enabled(s, a) && s.consumers[a.c].batch[0].taskType == AllocTensor
    requires PointOk(cfg, s, w, e, t, c) && ConsumerOk(s, w, a.c, e)
    requires ConsumerOk(s, w, a.c, s.consumers[a.c].batch[0]) && ElemOk(cfg, s, w, s.consumers[a.c].batch[0])
    requires e in s.consumers[a.c].batch[1..] <==> e in s.consumers[a.c].batch && e != s.consumers[a.c].batch[0]
    ensures PointOk(cfg, After(s, a), NextWitness(s, a, w), e, t, c)
  {
  }

  lemma FinishAndRelease(cfg: Config, s: State, a: Action, w: Witness, e: Elem, t: ThreadId, c: ConsumerId)
    requires a.Handle? && a.finished && Enabled(s, a) && s.consumers[a.c].batch[0].taskType != AllocTensor
    requires PointOk(cfg, s, w, e, t, c) && ConsumerOk(s, w, a.c, e)
    requires ConsumerOk(s, w, a.c, s.consumers[a.c].batch[0]) && ElemOk(cfg, s, w, s.consumers[a.c].batch[0])
    requires e in s.consumers[a.c].batch[1..] <==> e in s.consumers[a.c].batch && e != s.consumers[a.c].batch[0]
    ensures PointOk(cfg, After(s, a), NextWitness(s, a, w), e, t, c)
  {
  }

  lemma HandleKeeps(cfg: Config, s: State, a: Action, w: Witness, e: Elem, t: ThreadId, c: ConsumerId)
    requires a.Handle? && Enabled(s, a) && Inv(cfg, s, w)
    ensures PointOk(cfg, After(s, a), NextWitness(s, a, w), e, t, c)
  {
    var batch := s.consumers[a.c].batch;
    assert PointOk(cfg, s, w, e, t, c) && ConsumerOk(s, w, a.c, e) && NoRepeats(s, a.c);
    assert ConsumerOk(s, w, a.c, batch[0]) && ElemOk(cfg, s, w, batch[0]);
    TailMembers(batch, e);
    if !a.finished {
      KeepForNextPass(cfg, s, a, w, e, t, c);
    } else if batch[0].taskType == AllocTensor {
      FinishAlloc(cfg, s, a, w, e, t, c);
    } else {
      FinishAndRelease(cfg, s, a, w, e, t, c);
    }
  }

  lemma PointKeeps(cfg: Config, s: State, a: Action, w: Witness, e: Elem, t: ThreadId, c: ConsumerId)
    requires Enabled(s, a) && !TooEarly(s, a) && Inv(cfg, s, w)
    ensures PointOk(cfg, After(s, a), NextWitness(s, a, w), e, t, c)
  {
    assert PointOk(cfg, s, w, e, t, c);
    match a {
      case GetElem(_, k) =>
        if s.free[k] != [] {
          assert ElemOk(cfg, s, w, Elem(k, s.free[k][0]));
          TailMembers(s.free[k], e.elemID);
          GetElemKeeps(cfg, s, a, w, e, t, c);
        }
      case Enqueue(u, _) =>
        assert ThreadOk(s, w, u) && ElemOk(cfg, s, w, s.threads[u].elem);
        if s.threads[u].elem.taskType == AllocTensor {
          EnqueueAllocKeeps(cfg, s, a, w, e, t, c);
        } else {
          EnqueueOtherKeeps(cfg, s, a, w, e, t, c);
        }
      case Release(u) =>
        assert ThreadOk(s, w, u) && ElemOk(cfg, s, w, s.threads[u].elem);
        ReleaseKeeps(cfg, s, a, w, e, t, c);
      case StartPass(d) =>
        assert ConsumerOk(s, w, d, e);
        assert t in s.threads && s.threads[t] != Ready ==> ConsumerOk(s, w, d, s.threads[t].elem);
        StartPassKeeps(cfg, s, a, w, e, t, c);
      case Handle(_, _) => HandleKeeps(cfg, s, a, w, e, t, c);
    }
  }

  lemma FreeListsKeep(cfg: Config, s: State, a: Action, w: Witness)
    requires Enabled(s, a) && !TooEarly(s, a) && Inv(cfg, s, w)
    ensures var s' := After(s, a); AllPools(s'.free) && forall k: TaskType :: Distinct(s'.free[k])
  {
    match a {
      case Release(t) => assert ThreadOk(s, w, t) && ElemOk(cfg, s, w, s.threads[t].elem);
      case Handle(c, _) =>
        var e := s.consumers[c].batch[0];
        assert ConsumerOk(s, w, c, e) && ElemOk(cfg, s, w, e);
      case _ =>
    }
  }

  lemma EnqueueKeepsQueues(s: State, a: Action, w: Witness, c: ConsumerId)
    requires a.Enqueue? && Enabled(s, a) && c in s.consumers && NoRepeats(s, c)
    requires ThreadOk(s, w, a.t) && ConsumerOk(s, w, a.c, s.threads[a.t].elem)
    ensures c in After(s, a).consumers && NoRepeats(After(s, a), c)
  {
  }

  lemma StartPassKeepsQueues(s: State, a: Action, w: Witness, c: ConsumerId)
    requires a.StartPass? && Enabled(s, a) && c in s.consumers && NoRepeats(s, c) && NoRepeats(s, a.c)
    requires forall e :: ConsumerOk(s, w, a.c, e)
    ensures c in After(s, a).consumers && NoRepeats(After(s, a), c)
  {
    var k := s.consumers[a.c];
    forall e | e in k.queue ensures e !in k.remain {
      assert ConsumerOk(s, w, a.c, e);
    }
    ConcatDistinct(k.queue, k.remain);
  }

  lemma HandleKeepsQueues(s: State, a: Action, w: Witness, c: ConsumerId)
    requires a.Handle? && Enabled(s, a) && c in s.consumers && NoRepeats(s, c) && NoRepeats(s, a.c)
    requires ConsumerOk(s, w, a.c, s.consumers[a.c].batch[0])
    ensures c in After(s, a).consumers && NoRepeats(After(s, a), c)
  {
  }

  lemma QueuesKeep(cfg: Config, s: State, a: Action, w: Witness, c: ConsumerId)
    requires Enabled(s, a) && Inv(cfg, s, w) && c in s.consumers
    ensures c in After(s, a).consumers && NoRepeats(After(s, a), c)
  {
    assert NoRepeats(s, c);
    match a {
      case Enqueue(t, d) =>
        assert ThreadOk(s, w, t) && ConsumerOk(s, w, d, s.threads[t].elem);
        EnqueueKeepsQueues(s, a, w, c);
      case StartPass(d) =>
        assert NoRepeats(s, d);
        StartPassKeepsQueues(s, a, w, c);
      case Handle(d, _) =>
        assert NoRepeats(s, d) && ConsumerOk(s, w, d, s.consumers[d].batch[0]);
        HandleKeepsQueues(s, a, w, c);
      case _ =>
    }
  }

  lemma StepInv(cfg: Config, s: State, a: Action, w: Witness)
    requires Enabled(s, a) && !TooEarly(s, a) && Inv(cfg, s, w)
    ensures Inv(cfg, After(s, a), NextWitness(s, a, w))
  {
    var s', w' := After(s, a), NextWitness(s, a, w);
    FreeListsKeep(cfg, s, a, w);
    forall c | c in s'.consumers ensures NoRepeats(s', c) {
      QueuesKeep(cfg, s, a, w, c);
    }
    forall e, t, c ensures PointOk(cfg, s', w', e, t, c) {
      PointKeeps(cfg, s, a, w, e, t, c);
    }
    forall e ensures ElemOk(cfg, s', w', e) {
      assert PointOk(cfg, s', w', e, 0, 0);
    }
    forall t | t in s'.threads ensures ThreadOk(s', w', t) {
      assert PointOk(cfg, s', w', Elem(AllocTensor, 0), t, 0);
    }
    forall c, e | c in s'.consumers ensures ConsumerOk(s', w', c, e) {
      assert PointOk(cfg, s', w', e, 0, c);
    }
  }

  function AllElems(cfg: Config): set<Elem> {
    set t: TaskType, i | 0 <= i < cfg.Count(t) :: Elem(t, i)
  }

  function InitWitness(cfg: Config): Witness {
    Witness(map e | e in AllElems(cfg) :: Free, map[])
  }

  lemma InitInv(cfg: Config, s: State)
    requires Init(cfg, s)
    ensures Inv(cfg, s, InitWitness(cfg))
  {
    forall e ensures ElemOk(cfg, s, InitWitness(cfg), e) {
      assert e == Elem(e.taskType, e.elemID);
      assert e in AllElems(cfg) <==> cfg.Valid(e);
      assert cfg.Valid(e) ==> s.free[e.taskType][e.elemID] == e.elemID;
    }
  }

  /** No step up to i gives an element back too early, unless the assertion against it is compiled in. */
  ghost predicate NoneTooEarly(r: seq<State>, acts: seq<Action>, i: nat)
    requires i <= |acts| < |r|
  {
    forall j :: 0 <= j < i ==> r[j].checked || !TooEarly(r[j], acts[j])
  }

  lemma {:induction false} RunInv(cfg: Config, r: seq<State>, acts: seq<Action>, i: nat) returns (w: Witness)
    requires Run(cfg, r, acts) && i < |r| && NoneTooEarly(r, acts, i)
    ensures r[i].aborted || Inv(cfg, r[i], w)
  {
    if i == 0 {
      InitInv(cfg, r[0]);
      w := InitWitness(cfg);
    } else {
      var before := RunInv(cfg, r, acts, i - 1);
      assert Next(r[i - 1], r[i], acts[i - 1]);
      if TooEarly(r[i - 1], acts[i - 1]) {
        w := before;
      } else {
        StepInv(cfg, r[i - 1], acts[i - 1], before);
        w := NextWitness(r[i - 1], acts[i - 1], before);
      }
    }
  }

  // ---------- Conservation ----------

  /** Every pool element is in exactly one place, and only once there; nothing else is anywhere. */
  ghost predicate Conserved(cfg: Config, s: State) {
    && (forall e :: cfg.Valid(e) <==> exists p :: At(s, e, p))
    && (forall e, p, q :: At(s, e, p) && At(s, e, q) ==> p == q)
    && (forall k :: k in s.free ==> Distinct(s.free[k]))
    && (forall c :: c in s.consumers ==> NoRepeats(s, c))
  }

  lemma InvConserves(cfg: Config, s: State, w: Witness)
    requires Inv(cfg, s, w)
    ensures Conserved(cfg, s)
  {
    forall e, p | At(s, e, p) ensures e in w.place && w.place[e] == p {
      assert ElemOk(cfg, s, w, e);
      match p {
        case Taken(t) => assert ThreadOk(s, w, t);
        case Returned(t) => assert ThreadOk(s, w, t);
        case InQueue(c) => assert ConsumerOk(s, w, c, e);
        case InBatch(c) => assert ConsumerOk(s, w, c, e);
        case InRemain(c) => assert ConsumerOk(s, w, c, e);
        case Free =>
      }
    }
    forall e ensures cfg.Valid(e) <==> exists p :: At(s, e, p) {
      assert ElemOk(cfg, s, w, e);
      assert cfg.Valid(e) ==> At(s, e, w.place[e]);
    }
  }

  lemma TwoPlaces(cfg: Config, s: State, e: Elem, p: Place, q: Place)
    requires At(s, e, p) && At(s, e, q) && p != q
    ensures !Conserved(cfg, s)
  {
  }

  /** Giving an element back before it is done puts it in two places at once. */
  lemma TooEarlyBreaks(cfg: Config, s: State, a: Action, w: Witness)
    requires Inv(cfg, s, w) && Enabled(s, a) && TooEarly(s, a) && !s.checked
    ensures !Conserved(cfg, After(s, a))
  {
    var e, s' := s.threads[a.t].elem, After(s, a);
    assert ThreadOk(s, w, a.t) && ElemOk(cfg, s, w, e);
    TwoPlaces(cfg, s', e, Free, w.place[e]);
  }

  /**
   * Elements are conserved throughout a run exactly if no requester gives its element back too early; with SASSUME0
   * compiled in, none ever does.
   */
  lemma ConservedExactlyUnlessTooEarly(cfg: Config, r: seq<State>, acts: seq<Action>)
    requires Run(cfg, r, acts)
    ensures (forall i :: 0 <= i < |r| && !r[i].aborted ==> Conserved(cfg, r[i])) <==> NoneTooEarly(r, acts, |acts|)
  {
    if NoneTooEarly(r, acts, |acts|) {
      forall i: nat | i < |r| && !r[i].aborted ensures Conserved(cfg, r[i]) {
        var w := RunInv(cfg, r, acts, i);
        InvConserves(cfg, r[i], w);
      }
    } else {
      var i := FirstTooEarly(r, acts);
      var w := RunInv(cfg, r, acts, i);
      assert Next(r[i], r[i + 1], acts[i]);
      TooEarlyBreaks(cfg, r[i], acts[i], w);
    }
  }

  lemma FirstTooEarly(r: seq<State>, acts: seq<Action>) returns (i: nat)
    requires |acts| < |r| && !NoneTooEarly(r, acts, |acts|)
    ensures i < |acts| && !r[i].checked && TooEarly(r[i], acts[i]) && NoneTooEarly(r, acts, i)
  {
    i := 0;
    while r[i].checked || !TooEarly(r[i], acts[i])
      invariant i < |acts| && NoneTooEarly(r, acts, i)
      decreases |acts| - i
    {
      i := i + 1;
    }
  }

  lemma {:induction false} CheckedStays(cfg: Config, r: seq<State>, acts: seq<Action>, i: nat)
    requires Run(cfg, r, acts) && i < |r|
    ensures r[i].checked == r[0].checked
  {
    if i > 0 {
      CheckedStays(cfg, r, acts, i - 1);
      assert Next(r[i - 1], r[i], acts[i - 1]);
    }
  }

  function AllFree(cfg: Config): FreeLists {
    map[AllocTensor := seq(cfg.allocTensor, i => i), UpdateTensor := seq(cfg.updateTensor, i => i),
        RunPlan := seq(cfg.runPlan, i => i), AllocLayer := seq(cfg.allocLayer, i => i)]
  }

  lemma AllFreePools(cfg: Config)
    ensures AllPools(AllFree(cfg)) && forall t: TaskType :: AllFree(cfg)[t] == seq(cfg.Count(t), i => i)
  {
    forall t: TaskType ensures t in AllFree(cfg) && AllFree(cfg)[t] == seq(cfg.Count(t), i => i) {
      match t {
        case AllocTensor =>
        case UpdateTensor =>
        case RunPlan =>
        case AllocLayer =>
      }
    }
  }

  lemma ExtendRun(cfg: Config, r: seq<State>, acts: seq<Action>, a: Action) returns (r': seq<State>, acts': seq<Action>)
    requires Run(cfg, r, acts) && Enabled(r[|acts|], a)
    ensures Run(cfg, r', acts') && acts' == acts + [a] && r' == r + [After(r[|acts|], a)]
  {
    r', acts' := r + [After(r[|acts|], a)], acts + [a];
  }

  /** One requester asks for a tensor and queues its task. */
  lemma RunToWaiting(cfg: Config) returns (r: seq<State>, acts: seq<Action>)
    requires cfg.allocTensor > 0
    ensures Run(cfg, r, acts) && acts == [GetElem(0, AllocTensor), Enqueue(0, 0)]
    ensures !r[0].checked && !r[2].checked && !r[2].aborted && AllPools(r[2].free) && r[2].done == {}
    ensures 0 in r[2].threads && r[2].threads[0] == Waiting(Elem(AllocTensor, 0))
    ensures At(r[2], Elem(AllocTensor, 0), InQueue(0))
  {
    AllFreePools(cfg);
    r, acts := [State(AllFree(cfg), map[0 := Ready], map[0 := Consumer([], [], [])], {}, false, false)], [];
    r, acts := ExtendRun(cfg, r, acts, GetElem(0, AllocTensor));
    r, acts := ExtendRun(cfg, r, acts, Enqueue(0, 0));
  }

  /** It is woken at once, and gives the element back before the consumer has run. */
  lemma EarlyReleaseRun(cfg: Config) returns (r: seq<State>, acts: seq<Action>)
    requires cfg.allocTensor > 0
    ensures Run(cfg, r, acts) && acts == [GetElem(0, AllocTensor), Enqueue(0, 0), Release(0)] && !r[0].checked
    ensures !r[3].aborted && At(r[3], Elem(AllocTensor, 0), Free) && At(r[3], Elem(AllocTensor, 0), InQueue(0))
    ensures !Conserved(cfg, r[3])
  {
    r, acts := RunToWaiting(cfg);
    r, acts := ExtendRun(cfg, r, acts, Release(0));
    TwoPlaces(cfg, r[3], Elem(AllocTensor, 0), Free, InQueue(0));
  }

  ghost predicate Loses(cfg: Config, checked: bool, r: seq<State>, acts: seq<Action>) {
    Run(cfg, r, acts) && r[0].checked == checked && !r[|acts|].aborted && !Conserved(cfg, r[|acts|])
  }

  /** Some run, with the assertion compiled in or not, leads to a state in which an element is not in one place. */
  ghost predicate CanLose(cfg: Config, checked: bool) {
    exists r: seq<State>, acts: seq<Action> :: Loses(cfg, checked, r, acts)
  }

  lemma LosesOnlyUnchecked(cfg: Config, checked: bool, r: seq<State>, acts: seq<Action>)
    requires Loses(cfg, checked, r, acts)
    ensures !checked && cfg.allocTensor > 0
  {
    ConservedExactlyUnlessTooEarly(cfg, r, acts);
    var i := FirstTooEarly(r, acts);
    CheckedStays(cfg, r, acts, i);
    var w := RunInv(cfg, r, acts, i);
    assert Next(r[i], r[i + 1], acts[i]);
    var e := r[i].threads[acts[i].t].elem;
    assert ThreadOk(r[i], w, acts[i].t) && ElemOk(cfg, r[i], w, e);
  }

  lemma LosesWhenUnchecked(cfg: Config)
    requires cfg.allocTensor > 0
    ensures CanLose(cfg, false)
  {
    var r, acts := EarlyReleaseRun(cfg);
    assert Loses(cfg, false, r, acts);
  }

  /** Elements can be lost or shared exactly if SASSUME0 is compiled out and there is an AllocTensor element at all. */
  lemma LosesExactlyUnchecked(cfg: Config, checked: bool)
    ensures CanLose(cfg, checked) <==> !checked && cfg.allocTensor > 0
  {
    if CanLose(cfg, checked) {
      var r: seq<State>, acts: seq<Action> :| Loses(cfg, checked, r, acts);
      LosesOnlyUnchecked(cfg, checked, r, acts);
    }
    if !checked && cfg.allocTensor > 0 {
      LosesWhenUnchecked(cfg);
    }
  }

  ghost predicate OnlyAt(s: State, e: Elem, p: Place) {
    forall q :: At(s, e, q) <==> q == p
  }

  /** getElem never hands out an element that is in use. */
  lemma GetElemHandsOutUnused(cfg: Config, r: seq<State>, acts: seq<Action>, i: nat, t: ThreadId, k: TaskType)
    requires Run(cfg, r, acts) && i < |acts| && NoneTooEarly(r, acts, i) && acts[i] == GetElem(t, k)
    requires r[i + 1].threads[t].Holding?
    ensures var e := r[i + 1].threads[t].elem;
            e.taskType == k && cfg.Valid(e) && OnlyAt(r[i], e, Free) && OnlyAt(r[i + 1], e, Taken(t))
  {
    var w := RunInv(cfg, r, acts, i);
    assert Next(r[i], r[i + 1], acts[i]);
    StepInv(cfg, r[i], acts[i], w);
    InvConserves(cfg, r[i], w);
    InvConserves(cfg, r[i + 1], NextWitness(r[i], acts[i], w));
    assert At(r[i + 1], r[i + 1].threads[t].elem, Taken(t)) && At(r[i], r[i + 1].threads[t].elem, Free);
  }
}
