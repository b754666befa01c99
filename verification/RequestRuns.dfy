/** Request and reply over all runs: session threads, the job queue, job consumers and the broker, interleaved. */
module RequestRuns {
  import opened Options
  import opened Sequences
  import BT = BrokerTables
  import B = BrokerProtocol
  import D = BrokerSubscriber
  import opened Worker

  type ClientId = nat
  type ConsumerId = nat
  type Tid = B.Tid

  /** MAKE_JOBTASK_KEY(jobID, 0) for IDs that have not wrapped around. */
  function KeyOf(job: JobId): BT.Key {
    job * 0x1_0000_0000
  }

  /** The keys of this model are those of the source, for job IDs that are not negative. */
  lemma KeyOfMatchesSource(jobID: bv64)
    requires jobID <= 0x7FFF_FFFF
    ensures KeyOf(BT.Unsigned(jobID)) == BT.Unsigned(BT.MakeJobTaskKey(jobID, 0))
  {
    BT.KeyOfJobAlone(jobID);
  }

  function JobOfKey(key: BT.Key): JobId {
    key / 0x1_0000_0000
  }

  /**
   * One push of a Job: the steps of pushJob, then the blocking subscribe that handlePushJobMsg makes if there is a
   * reply.
   */
  datatype Client =
    | Made(job: JobId)
    | WithReply(job: JobId, reply: JobId)
    | Ready(job: JobId, pubJobID: Option<JobId>)
    | Sent(job: JobId, pubJobID: Option<JobId>)
    | Subscribed(job: JobId, pubJobID: Option<JobId>, tid: Tid)

  /** A job consumer thread. A handler that runs a network may push a Job of its own on the way. */
  datatype Consumer =
    | Idle
    | Running(job: JobId, pushedOwn: bool)
    | Nesting(job: JobId, own: JobId)
    | Fetched(job: JobId, reply: JobId)
    | Publishing(job: JobId, tid: Tid)
    | Failed(job: JobId)
    | Stopped

  /** pushed, popped and done are history: the order of pushes and pops, and the Jobs whose handlers have returned. */
  datatype System = System(
    tables: Tables,
    clients: map<ClientId, Client>,
    consumers: map<ConsumerId, Consumer>,
    broker: B.State,
    pushed: seq<JobId>,
    popped: seq<JobId>,
    done: set<JobId>)

  predicate Init(cfg: BT.Config, s: System) {
    && s.tables == Tables(0, map[], map[], []) && s.clients == map[] && B.Init(cfg, s.broker)
    && (forall c :: c in s.consumers ==> s.consumers[c] == Idle)
    && s.pushed == [] && s.popped == [] && s.done == {}
  }

  datatype Action =
    | NewRequest(i: ClientId, t: JobType) | NewReply(i: ClientId) | RegisterReply(i: ClientId)
    | Enqueue(i: ClientId) | Subscribe(i: ClientId, tid: Tid)
    | Pop(c: ConsumerId) | NewOwn(c: ConsumerId) | EnqueueOwn(c: ConsumerId)
    | FetchReply(c: ConsumerId) | Publish(c: ConsumerId, tid: Tid) | Finish(c: ConsumerId) | Reject(c: ConsumerId)
    | BrokerStep(a: B.Action)

  predicate ClientAt(s: System, i: ClientId) {
    i in s.clients && s.clients[i].job in s.tables.jobs
  }

  function ClientType(s: System, i: ClientId): JobType
    requires ClientAt(s, i)
  {
    s.tables.jobs[s.clients[i].job]
  }

  predicate RunningAt(s: System, c: ConsumerId) {
    c in s.consumers && s.consumers[c].Running? && s.consumers[c].job in s.tables.jobs
  }

  function RunningType(s: System, c: ConsumerId): JobType
    requires RunningAt(s, c)
  {
    s.tables.jobs[s.consumers[c].job]
  }

  /** The handler has returned: it published its reply, it needs none, or it halts the machine. */
  predicate Returns(s: System, c: ConsumerId) {
    || (RunningAt(s, c) && (Dispatch(RunningType(s, c)) == Plain || Dispatch(RunningType(s, c)) == Halts))
    || (c in s.consumers && s.consumers[c].Publishing? && B.PubAt(s.broker, s.consumers[c].tid, B.PubDone))
  }

  predicate Enabled(s: System, a: Action) {
    match a
    case NewRequest(i, t) => i !in s.clients && t != JobTypeMax
    case NewReply(i) => ClientAt(s, i) && s.clients[i].Made? && HasPubJob(ClientType(s, i))
    case RegisterReply(i) => ClientAt(s, i) && s.clients[i].WithReply?
    case Enqueue(i) => ClientAt(s, i) && (s.clients[i].Ready? || (s.clients[i].Made? && !HasPubJob(ClientType(s, i))))
    case Subscribe(i, tid) =>
      ClientAt(s, i) && s.clients[i].Sent? && HasPubJob(ClientType(s, i))
      && B.Enabled(s.broker, B.NewSubscribe(tid, KeyOf(s.clients[i].job), BT.Blocking))
    case Pop(c) => c in s.consumers && s.consumers[c] == Idle && s.tables.queue != []
    case NewOwn(c) => RunningAt(s, c) && RunningType(s, c) == RunNetwork && !s.consumers[c].pushedOwn
    case EnqueueOwn(c) => c in s.consumers && s.consumers[c].Nesting?
    case FetchReply(c) => RunningAt(s, c) && Dispatch(RunningType(s, c)) == Publishes
    case Publish(c, tid) =>
      c in s.consumers && s.consumers[c].Fetched?
      && B.Enabled(s.broker, B.NewPublish(tid, KeyOf(s.consumers[c].job), s.consumers[c].reply))
    case Finish(c) => Returns(s, c)
    case Reject(c) => RunningAt(s, c) && Dispatch(RunningType(s, c)) == Invalid
    case BrokerStep(a) => !a.NewPublish? && !a.NewSubscribe? && B.Enabled(s.broker, a)
  }

  function Client1(s: System, i: ClientId, tables: Tables, c: Client): System {
    s.(tables := tables, clients := s.clients[i := c])
  }

  function Consumer1(s: System, c: ConsumerId, tables: Tables, k: Consumer): System {
    s.(tables := tables, consumers := s.consumers[c := k])
  }

  /** getPubJob asserts that the lookup hits and that the reply found has the mapped type. */
  predicate LookupOk(s: System, job: JobId) {
    && job in s.tables.jobs && job in s.tables.replyMap && s.tables.replyMap[job] in s.tables.jobs
    && s.tables.jobs[s.tables.replyMap[job]] == PubJobType(s.tables.jobs[job])
  }

  function After(s: System, a: Action): System
    requires Enabled(s, a)
  {
    match a
    case NewRequest(i, t) => Client1(s, i, Created(s.tables, t), Made(s.tables.nextID))
    case NewReply(i) =>
      Client1(s, i, Created(s.tables, PubJobType(ClientType(s, i))), WithReply(s.clients[i].job, s.tables.nextID))
    case RegisterReply(i) =>
      var r := s.clients[i];
      Client1(s, i, Prepared(s.tables, r.job, r.reply), Ready(r.job, Some(r.reply)))
    case Enqueue(i) =>
      var r := s.clients[i];
      Client1(s, i, Queued(s.tables, r.job), Sent(r.job, if r.Ready? then r.pubJobID else None))
        .(pushed := s.pushed + [r.job])
    case Subscribe(i, tid) =>
      var r := s.clients[i];
      Client1(s, i, s.tables, Subscribed(r.job, r.pubJobID, tid)).(
        broker := B.After(s.broker, B.NewSubscribe(tid, KeyOf(r.job), BT.Blocking)))
    case Pop(c) =>
      Consumer1(s, c, Popped(s.tables), Running(s.tables.queue[0], false)).(popped := s.popped + [s.tables.queue[0]])
    case NewOwn(c) =>
      Consumer1(s, c, Created(s.tables, StartInputDataProvider), Nesting(s.consumers[c].job, s.tables.nextID))
    case EnqueueOwn(c) =>
      var k := s.consumers[c];
      Consumer1(s, c, Queued(s.tables, k.own), Running(k.job, true)).(pushed := s.pushed + [k.own])
    case FetchReply(c) =>
      var job := s.consumers[c].job;
      if LookupOk(s, job) then
        Consumer1(s, c, Worker.Fetched(s.tables, job), Fetched(job, s.tables.replyMap[job]))
      else
        Consumer1(s, c, s.tables, Failed(job))
    case Publish(c, tid) =>
      var k := s.consumers[c];
      Consumer1(s, c, s.tables, Publishing(k.job, tid)).(
        broker := B.After(s.broker, B.NewPublish(tid, KeyOf(k.job), k.reply)))
    case Finish(c) =>
      var halts := s.consumers[c].Running? && Dispatch(RunningType(s, c)) == Halts;
      Consumer1(s, c, s.tables, if halts then Stopped else Idle).(done := s.done + {s.consumers[c].job})
    case Reject(c) => Consumer1(s, c, s.tables, Failed(s.consumers[c].job))
    case BrokerStep(a) => s.(broker := B.After(s.broker, a))
  }

  predicate Next(s: System, s': System, a: Action) {
    Enabled(s, a) && s' == After(s, a)
  }

  ghost predicate Run(cfg: BT.Config, r: seq<System>, acts: seq<Action>) {
    && |r| == |acts| + 1 && Init(cfg, r[0])
    && forall i :: 0 <= i < |acts| ==> Next(r[i], r[i + 1], acts[i])
  }

  // ---------- The inductive invariant ----------

  /** Where a Job is. */
  datatype Place =
    | AtClient(i: ClientId) | InQueue | AtConsumer(c: ConsumerId) | OwnOf(c: ConsumerId) | Finished
    | ReplyTo(job: JobId)

  /** The place of every Job, the reply made for it, who sent it, and the broker calls made for it. */
  datatype Witness = Witness(
    place: map<JobId, Place>,
    reply: map<JobId, JobId>,
    sender: map<JobId, ClientId>,
    pubCall: map<JobId, Tid>,
    subCall: map<JobId, Tid>)

  predicate WasPushed(p: Place) {
    p == InQueue || p.AtConsumer? || p == Finished
  }

  predicate Unfetched(k: Consumer) {
    k.Running? || k.Nesting?
  }

  predicate BusyWith(s: System, c: ConsumerId, j: JobId) {
    c in s.consumers && s.consumers[c] != Idle && s.consumers[c] != Stopped && s.consumers[c].job == j
  }

  /** From registration in pushJob to the lookup in getPubJob. */
  predicate ReplyWaits(s: System, w: Witness, j: JobId)
    requires j in w.place
  {
    match w.place[j]
    case AtClient(i) => i in s.clients && s.clients[i].Ready?
    case InQueue => true
    case AtConsumer(c) => c in s.consumers && Unfetched(s.consumers[c])
    case _ => false
  }

  predicate PlaceOk(s: System, w: Witness, j: JobId)
    requires j in w.place && j in s.tables.jobs
  {
    match w.place[j]
    case AtClient(i) => i in s.clients && !s.clients[i].Sent? && !s.clients[i].Subscribed? && s.clients[i].job == j
    case InQueue => j in s.tables.queue
    case AtConsumer(c) => BusyWith(s, c, j)
    case OwnOf(c) => c in s.consumers && s.consumers[c].Nesting? && s.consumers[c].own == j
    case Finished => j in s.done
    case ReplyTo(of) =>
      of in w.reply && w.reply[of] == j && of in s.tables.jobs && s.tables.jobs[j] == PubJobType(s.tables.jobs[of])
  }

  predicate JobOk(s: System, w: Witness, j: JobId) {
    && (j in s.tables.jobs <==> j in w.place) && (j in s.tables.jobs ==> j < s.tables.nextID)
    && (j in s.tables.replyMap || j in w.reply || j in w.sender || j in s.pushed || j in w.pubCall ==> j in w.place)
    && (j in w.subCall ==> j in w.sender)
    && (j in w.reply ==> w.reply[j] in w.place && w.place[w.reply[j]] == ReplyTo(j))
    && (j in s.tables.queue || j in s.done ==> j in w.place)
    && (j in w.place ==>
          && PlaceOk(s, w, j)
          && (j in s.tables.queue ==> w.place[j] == InQueue)
          && (j in s.done ==> w.place[j] == Finished)
          && (j in s.pushed <==> WasPushed(w.place[j]))
          && (j in w.pubCall ==>
                && (w.place[j] == Finished || w.place[j].AtConsumer?)
                && w.pubCall[j] in s.broker.pubs && s.broker.pubs[w.pubCall[j]].key == KeyOf(j))
          && (j in s.tables.replyMap <==> HasPubJob(s.tables.jobs[j]) && ReplyWaits(s, w, j))
          && (j in s.tables.replyMap ==> j in w.reply && w.reply[j] == s.tables.replyMap[j])
          && (w.place[j] == Finished && HasPubJob(s.tables.jobs[j]) ==>
                j in w.pubCall && B.PubAt(s.broker, w.pubCall[j], B.PubDone)))
  }

  predicate ClientOk(s: System, w: Witness, i: ClientId)
    requires i in s.clients
  {
    var r := s.clients[i];
    && r.job in s.tables.jobs && r.job in w.sender && w.sender[r.job] == i
    && (r.Made? || r.WithReply? || r.Ready? ==> r.job in w.place && w.place[r.job] == AtClient(i))
    && (r.Made? ==> r.job !in w.reply)
    && (r.WithReply? ==> HasPubJob(s.tables.jobs[r.job]) && r.job in w.reply && w.reply[r.job] == r.reply)
    && (!r.Made? && !r.WithReply? ==>
          r.pubJobID == if HasPubJob(s.tables.jobs[r.job]) && r.job in w.reply then Some(w.reply[r.job]) else None)
    && (!r.Made? && HasPubJob(s.tables.jobs[r.job]) ==> r.job in w.reply)
    && (r.Ready? ==> HasPubJob(s.tables.jobs[r.job]))
    && (r.Subscribed? <==> r.job in w.subCall)
    && (r.Subscribed? ==>
          && w.subCall[r.job] == r.tid && r.tid in s.broker.subs
          && s.broker.subs[r.tid].key == KeyOf(r.job) && HasPubJob(s.tables.jobs[r.job]))
  }

  predicate ConsumerOk(s: System, w: Witness, c: ConsumerId)
    requires c in s.consumers
  {
    var k := s.consumers[c];
    && (k != Idle && k != Stopped ==> k.job in w.place && w.place[k.job] == AtConsumer(c) && k.job in s.tables.jobs)
    && (k.Nesting? ==>
          && k.own in w.place && w.place[k.own] == OwnOf(c)
          && k.own in s.tables.jobs && !HasPubJob(s.tables.jobs[k.own]))
    && (k.Fetched? ==> HasPubJob(s.tables.jobs[k.job]) && k.job in w.reply && w.reply[k.job] == k.reply)
    && (k.Publishing? ==> k.job in w.pubCall && w.pubCall[k.job] == k.tid)
    && (k.Running? || k.Nesting? || k.Fetched? ==> k.job !in w.pubCall)
    && (k.Failed? ==> !HasPubJob(s.tables.jobs[k.job]))
  }

  predicate PubCallOk(s: System, w: Witness, t: Tid)
    requires t in s.broker.pubs
  {
    var p := s.broker.pubs[t];
    var j := JobOfKey(p.key);
    p.key == KeyOf(j) && j in w.pubCall && w.pubCall[j] == t && j in w.reply && p.content == w.reply[j]
  }

  predicate SubCallOk(s: System, w: Witness, t: Tid)
    requires t in s.broker.subs
  {
    var p := s.broker.subs[t];
    var j := JobOfKey(p.key);
    && p.key == KeyOf(j) && p.access == BT.Blocking && j in w.subCall && w.subCall[j] == t
    && j in w.sender && w.sender[j] in s.clients && s.clients[w.sender[j]].Subscribed? &&
       s.clients[w.sender[j]].job == j
  }

  ghost predicate QueueOk(s: System) {
    s.pushed == s.popped + s.tables.queue && Distinct(s.pushed)
  }

  ghost predicate Inv(s: System, w: Witness) {
    && QueueOk(s)
    && (forall j {:trigger JobOk(s, w, j)} :: JobOk(s, w, j))
    && (forall i {:trigger ClientOk(s, w, i)} :: i in s.clients ==> ClientOk(s, w, i))
    && (forall c {:trigger ConsumerOk(s, w, c)} :: c in s.consumers ==> ConsumerOk(s, w, c))
    && (forall t {:trigger PubCallOk(s, w, t)} :: t in s.broker.pubs ==> PubCallOk(s, w, t))
    && (forall t {:trigger SubCallOk(s, w, t)} :: t in s.broker.subs ==> SubCallOk(s, w, t))
  }

  predicate CallsOk(s: System, w: Witness, i: ClientId, t: Tid) {
    && (i in s.clients ==> ClientOk(s, w, i))
    && (t in s.broker.pubs ==> PubCallOk(s, w, t)) && (t in s.broker.subs ==> SubCallOk(s, w, t))
  }

  predicate ThreadsOk(s: System, w: Witness, i: ClientId, c: ConsumerId, t: Tid) {
    CallsOk(s, w, i, t) && (c in s.consumers ==> ConsumerOk(s, w, c))
  }

  function NextWitness(s: System, a: Action, w: Witness): Witness
    requires Enabled(s, a)
  {
    match a
    case NewRequest(i, _) =>
      w.(place := w.place[s.tables.nextID := AtClient(i)], sender := w.sender[s.tables.nextID := i])
    case NewReply(i) =>
      w.(place := w.place[s.tables.nextID := ReplyTo(s.clients[i].job)],
         reply := w.reply[s.clients[i].job := s.tables.nextID])
    case Enqueue(i) => w.(place := w.place[s.clients[i].job := InQueue])
    case Subscribe(i, tid) => w.(subCall := w.subCall[s.clients[i].job := tid])
    case Pop(c) => w.(place := w.place[s.tables.queue[0] := AtConsumer(c)])
    case NewOwn(c) => w.(place := w.place[s.tables.nextID := OwnOf(c)])
    case EnqueueOwn(c) => w.(place := w.place[s.consumers[c].own := InQueue])
    case Publish(c, tid) => w.(pubCall := w.pubCall[s.consumers[c].job := tid])
    case Finish(c) => w.(place := w.place[s.consumers[c].job := Finished])
    case _ => w
  }

  // ---------- One lemma per kind of step, on one Job and on one thread of each kind ----------

  lemma KeyNamesJob(job: JobId)
    ensures JobOfKey(KeyOf(job)) == job
  {
  }

  lemma NewRequestMakesJob(s: System, a: Action, w: Witness)
    requires a.NewRequest? && Enabled(s, a) && JobOk(s, w, s.tables.nextID)
    ensures JobOk(After(s, a), NextWitness(s, a, w), s.tables.nextID)
  {
  }

  lemma NewRequestKeepsOtherJob(s: System, a: Action, w: Witness, j: JobId)
    requires a.NewRequest? && Enabled(s, a) && j != s.tables.nextID && JobOk(s, w, j) && JobOk(s, w, s.tables.nextID)
    ensures JobOk(After(s, a), NextWitness(s, a, w), j)
  {
  }

  lemma NewRequestKeepsThreads(s: System, a: Action, w: Witness, i: ClientId, c: ConsumerId, t: Tid)
    requires a.NewRequest? && Enabled(s, a) && ThreadsOk(s, w, i, c, t) && JobOk(s, w, s.tables.nextID)
    ensures ThreadsOk(After(s, a), NextWitness(s, a, w), i, c, t)
  {
  }

  lemma NewReplyMakesJob(s: System, a: Action, w: Witness)
    requires a.NewReply? && Enabled(s, a) && JobOk(s, w, s.tables.nextID)
    requires JobOk(s, w, s.tables.nextID) && ClientOk(s, w, a.i) && JobOk(s, w, s.clients[a.i].job)
    ensures JobOk(After(s, a), NextWitness(s, a, w), s.tables.nextID)
  {
  }

  lemma NewReplyKeepsOtherJob(s: System, a: Action, w: Witness, j: JobId)
    requires a.NewReply? && Enabled(s, a) && j != s.tables.nextID && JobOk(s, w, j)
    requires JobOk(s, w, s.tables.nextID) && ClientOk(s, w, a.i) && JobOk(s, w, s.clients[a.i].job)
    ensures JobOk(After(s, a), NextWitness(s, a, w), j)
  {
  }

  lemma NewReplyKeepsThreads(s: System, a: Action, w: Witness, i: ClientId, c: ConsumerId, t: Tid)
    requires a.NewReply? && Enabled(s, a) && ThreadsOk(s, w, i, c, t)
    requires JobOk(s, w, s.tables.nextID) && ClientOk(s, w, a.i) && JobOk(s, w, s.clients[a.i].job)
    ensures ThreadsOk(After(s, a), NextWitness(s, a, w), i, c, t)
  {
  }

  lemma RegisterReplyKeepsJob(s: System, a: Action, w: Witness, j: JobId)
    requires a.RegisterReply? && Enabled(s, a) && JobOk(s, w, j)
    requires ClientOk(s, w, a.i) && JobOk(s, w, s.clients[a.i].job)
    ensures JobOk(After(s, a), NextWitness(s, a, w), j)
  {
  }

  lemma RegisterReplyKeepsThreads(s: System, a: Action, w: Witness, i: ClientId, c: ConsumerId, t: Tid)
    requires a.RegisterReply? && Enabled(s, a) && ThreadsOk(s, w, i, c, t)
    requires ClientOk(s, w, a.i) && JobOk(s, w, s.clients[a.i].job)
    ensures ThreadsOk(After(s, a), NextWitness(s, a, w), i, c, t)
  {
  }

  lemma EnqueueKeepsJob(s: System, a: Action, w: Witness, j: JobId)
    requires a.Enqueue? && Enabled(s, a) && JobOk(s, w, j)
    requires ClientOk(s, w, a.i) && JobOk(s, w, s.clients[a.i].job)
    ensures JobOk(After(s, a), NextWitness(s, a, w), j)
  {
  }

  lemma EnqueueKeepsThreads(s: System, a: Action, w: Witness, i: ClientId, c: ConsumerId, t: Tid)
    requires a.Enqueue? && Enabled(s, a) && ThreadsOk(s, w, i, c, t)
    requires ClientOk(s, w, a.i) && JobOk(s, w, s.clients[a.i].job)
    ensures ThreadsOk(After(s, a), NextWitness(s, a, w), i, c, t)
  {
  }

  lemma SubscribeKeepsJob(s: System, a: Action, w: Witness, j: JobId)
    requires a.Subscribe? && Enabled(s, a) && JobOk(s, w, j)
    requires ClientOk(s, w, a.i) && JobOk(s, w, s.clients[a.i].job)
    ensures JobOk(After(s, a), NextWitness(s, a, w), j)
  {
  }

  lemma SubscribeKeepsThreads(s: System, a: Action, w: Witness, i: ClientId, c: ConsumerId, t: Tid)
    requires a.Subscribe? && Enabled(s, a) && ThreadsOk(s, w, i, c, t)
    requires ClientOk(s, w, a.i) && JobOk(s, w, s.clients[a.i].job)
    ensures ThreadsOk(After(s, a), NextWitness(s, a, w), i, c, t)
  {
    KeyNamesJob(s.clients[a.i].job);
  }

  lemma PopKeepsJob(s: System, a: Action, w: Witness, j: JobId)
    requires a.Pop? && Enabled(s, a) && JobOk(s, w, j)
    requires ConsumerOk(s, w, a.c) && JobOk(s, w, s.tables.queue[0])
    requires j in s.tables.queue[1..] <==> j in s.tables.queue && j != s.tables.queue[0]
    ensures JobOk(After(s, a), NextWitness(s, a, w), j)
  {
  }

  lemma PopKeepsThreads(s: System, a: Action, w: Witness, i: ClientId, c: ConsumerId, t: Tid)
    requires a.Pop? && Enabled(s, a) && ThreadsOk(s, w, i, c, t)
    requires ConsumerOk(s, w, a.c) && JobOk(s, w, s.tables.queue[0])
    ensures ThreadsOk(After(s, a), NextWitness(s, a, w), i, c, t)
  {
  }

  lemma NewOwnMakesJob(s: System, a: Action, w: Witness)
    requires a.NewOwn? && Enabled(s, a) && JobOk(s, w, s.tables.nextID)
    requires ConsumerOk(s, w, a.c) && JobOk(s, w, s.tables.nextID) && JobOk(s, w, s.consumers[a.c].job)
    ensures JobOk(After(s, a), NextWitness(s, a, w), s.tables.nextID)
  {
  }

  lemma NewOwnKeepsItsJob(s: System, a: Action, w: Witness)
    requires a.NewOwn? && Enabled(s, a) && a.c in s.consumers
    requires ConsumerOk(s, w, a.c) && JobOk(s, w, s.tables.nextID) && JobOk(s, w, s.consumers[a.c].job)
    ensures JobOk(After(s, a), NextWitness(s, a, w), s.consumers[a.c].job)
  {
  }

  lemma NewOwnKeepsKnownJob(s: System, a: Action, w: Witness, j: JobId)
    requires a.NewOwn? && Enabled(s, a) && JobOk(s, w, j) && j in w.place
    requires j != s.tables.nextID && j != s.consumers[a.c].job
    requires ConsumerOk(s, w, a.c) && JobOk(s, w, s.tables.nextID) && JobOk(s, w, s.consumers[a.c].job)
    ensures JobOk(After(s, a), NextWitness(s, a, w), j)
  {
  }

  lemma NewOwnKeepsUnknownJob(s: System, a: Action, w: Witness, j: JobId)
    requires a.NewOwn? && Enabled(s, a) && JobOk(s, w, j) && j !in w.place && j != s.tables.nextID
    ensures JobOk(After(s, a), NextWitness(s, a, w), j)
  {
  }

  lemma NewOwnMovesConsumer(s: System, a: Action, w: Witness)
    requires a.NewOwn? && Enabled(s, a) && a.c in s.consumers
    requires ConsumerOk(s, w, a.c) && JobOk(s, w, s.tables.nextID) && JobOk(s, w, s.consumers[a.c].job)
    ensures ConsumerOk(After(s, a), NextWitness(s, a, w), a.c)
  {
  }

  lemma NewOwnKeepsOtherConsumer(s: System, a: Action, w: Witness, c: ConsumerId)
    requires a.NewOwn? && Enabled(s, a) && c in s.consumers && c != a.c && ConsumerOk(s, w, c)
    requires ConsumerOk(s, w, a.c) && JobOk(s, w, s.tables.nextID) && JobOk(s, w, s.consumers[a.c].job)
    ensures c in After(s, a).consumers && ConsumerOk(After(s, a), NextWitness(s, a, w), c)
  {
  }

  lemma NewOwnKeepsCalls(s: System, a: Action, w: Witness, i: ClientId, t: Tid)
    requires a.NewOwn? && Enabled(s, a) && CallsOk(s, w, i, t)
    requires ConsumerOk(s, w, a.c) && JobOk(s, w, s.tables.nextID) && JobOk(s, w, s.consumers[a.c].job)
    ensures CallsOk(After(s, a), NextWitness(s, a, w), i, t)
  {
  }

  lemma EnqueueOwnKeepsJob(s: System, a: Action, w: Witness, j: JobId)
    requires a.EnqueueOwn? && Enabled(s, a) && JobOk(s, w, j)
    requires ConsumerOk(s, w, a.c) && JobOk(s, w, s.consumers[a.c].own) && JobOk(s, w, s.consumers[a.c].job)
    ensures JobOk(After(s, a), NextWitness(s, a, w), j)
  {
  }

  lemma EnqueueOwnKeepsThreads(s: System, a: Action, w: Witness, i: ClientId, c: ConsumerId, t: Tid)
    requires a.EnqueueOwn? && Enabled(s, a) && ThreadsOk(s, w, i, c, t)
    requires ConsumerOk(s, w, a.c) && JobOk(s, w, s.consumers[a.c].own) && JobOk(s, w, s.consumers[a.c].job)
    ensures ThreadsOk(After(s, a), NextWitness(s, a, w), i, c, t)
  {
  }

  lemma FetchReplyKeepsJob(s: System, a: Action, w: Witness, j: JobId)
    requires a.FetchReply? && Enabled(s, a) && JobOk(s, w, j)
    requires ConsumerOk(s, w, a.c) && JobOk(s, w, s.consumers[a.c].job)
    requires s.consumers[a.c].job in w.reply ==> JobOk(s, w, w.reply[s.consumers[a.c].job])
    ensures JobOk(After(s, a), NextWitness(s, a, w), j)
    ensures After(s, a).consumers[a.c].Fetched?
  {
    PublishingHandlersHaveReplies(RunningType(s, a.c));
  }

  lemma FetchReplyKeepsThreads(s: System, a: Action, w: Witness, i: ClientId, c: ConsumerId, t: Tid)
    requires a.FetchReply? && Enabled(s, a) && ThreadsOk(s, w, i, c, t)
    requires ConsumerOk(s, w, a.c) && JobOk(s, w, s.consumers[a.c].job)
    requires s.consumers[a.c].job in w.reply ==> JobOk(s, w, w.reply[s.consumers[a.c].job])
    ensures ThreadsOk(After(s, a), NextWitness(s, a, w), i, c, t)
    ensures After(s, a).consumers[a.c].Fetched?
  {
    PublishingHandlersHaveReplies(RunningType(s, a.c));
  }

  lemma PublishKeepsJob(s: System, a: Action, w: Witness, j: JobId)
    requires a.Publish? && Enabled(s, a) && JobOk(s, w, j)
    requires ConsumerOk(s, w, a.c) && JobOk(s, w, s.consumers[a.c].job)
    ensures JobOk(After(s, a), NextWitness(s, a, w), j)
  {
  }

  lemma PublishKeepsThreads(s: System, a: Action, w: Witness, i: ClientId, c: ConsumerId, t: Tid)
    requires a.Publish? && Enabled(s, a) && ThreadsOk(s, w, i, c, t)
    requires ConsumerOk(s, w, a.c) && JobOk(s, w, s.consumers[a.c].job)
    ensures ThreadsOk(After(s, a), NextWitness(s, a, w), i, c, t)
  {
    KeyNamesJob(s.consumers[a.c].job);
  }

  lemma FinishKeepsOtherJob(s: System, a: Action, w: Witness, j: JobId)
    requires a.Finish? && Enabled(s, a) && j != s.consumers[a.c].job
    requires JobOk(s, w, j)
    requires ConsumerOk(s, w, a.c) && JobOk(s, w, s.consumers[a.c].job)
    ensures JobOk(After(s, a), NextWitness(s, a, w), j)
  {
    PublishingHandlersHaveReplies(s.tables.jobs[s.consumers[a.c].job]);
  }

  lemma FinishMovesJob(s: System, a: Action, w: Witness)
    requires a.Finish? && Enabled(s, a)
    requires ConsumerOk(s, w, a.c) && JobOk(s, w, s.consumers[a.c].job)
    ensures JobOk(After(s, a), NextWitness(s, a, w), s.consumers[a.c].job)
  {
    PublishingHandlersHaveReplies(s.tables.jobs[s.consumers[a.c].job]);
  }

  lemma FinishKeepsThreads(s: System, a: Action, w: Witness, i: ClientId, c: ConsumerId, t: Tid)
    requires a.Finish? && Enabled(s, a) && ThreadsOk(s, w, i, c, t)
    requires ConsumerOk(s, w, a.c) && JobOk(s, w, s.consumers[a.c].job)
    ensures ThreadsOk(After(s, a), NextWitness(s, a, w), i, c, t)
  {
    PublishingHandlersHaveReplies(s.tables.jobs[s.consumers[a.c].job]);
  }

  lemma RejectKeepsJob(s: System, a: Action, w: Witness, j: JobId)
    requires a.Reject? && Enabled(s, a) && JobOk(s, w, j)
    requires ConsumerOk(s, w, a.c) && JobOk(s, w, s.consumers[a.c].job)
    ensures JobOk(After(s, a), NextWitness(s, a, w), j)
  {
    PublishingHandlersHaveReplies(s.tables.jobs[s.consumers[a.c].job]);
  }

  lemma RejectKeepsThreads(s: System, a: Action, w: Witness, i: ClientId, c: ConsumerId, t: Tid)
    requires a.Reject? && Enabled(s, a) && ThreadsOk(s, w, i, c, t)
    requires ConsumerOk(s, w, a.c) && JobOk(s, w, s.consumers[a.c].job)
    ensures ThreadsOk(After(s, a), NextWitness(s, a, w), i, c, t)
  {
    PublishingHandlersHaveReplies(s.tables.jobs[s.consumers[a.c].job]);
  }

  /** What a publish was made with does not change, and a finished one stays finished. */
  lemma BrokerStepKeepsPublish(b: B.State, a: B.Action, t: Tid)
    requires B.Enabled(b, a) && !a.NewPublish? && !a.NewSubscribe?
    ensures var b' := B.After(b, a);
            && (t in b'.pubs <==> t in b.pubs)
            && (t in b.pubs ==>
                  && b'.pubs[t].key == b.pubs[t].key && b'.pubs[t].content == b.pubs[t].content
                  && (b.pubs[t].pc == B.PubDone ==> b'.pubs[t].pc == B.PubDone))
  {
  }

  lemma BrokerStepKeepsSubscribe(b: B.State, a: B.Action, t: Tid)
    requires B.Enabled(b, a) && !a.NewPublish? && !a.NewSubscribe?
    ensures var b' := B.After(b, a);
            && (t in b'.subs <==> t in b.subs)
            && (t in b.subs ==> b'.subs[t].key == b.subs[t].key && b'.subs[t].access == b.subs[t].access)
  {
  }

  lemma BrokerStepKeepsJob(s: System, a: Action, w: Witness, j: JobId)
    requires a.BrokerStep? && Enabled(s, a) && JobOk(s, w, j)
    ensures JobOk(After(s, a), NextWitness(s, a, w), j)
  {
    if j in w.pubCall {
      BrokerStepKeepsPublish(s.broker, a.a, w.pubCall[j]);
    }
  }

  lemma BrokerStepKeepsThreads(s: System, a: Action, w: Witness, i: ClientId, c: ConsumerId, t: Tid)
    requires a.BrokerStep? && Enabled(s, a) && ThreadsOk(s, w, i, c, t)
    ensures ThreadsOk(After(s, a), NextWitness(s, a, w), i, c, t)
  {
    BrokerStepKeepsPublish(s.broker, a.a, t);
    BrokerStepKeepsSubscribe(s.broker, a.a, t);
    if i in s.clients && s.clients[i].Subscribed? {
      BrokerStepKeepsSubscribe(s.broker, a.a, s.clients[i].tid);
    }
  }

  /** A step of pushJob or of the subscribe that follows it. */
  predicate BySession(a: Action) {
    a.NewRequest? || a.NewReply? || a.RegisterReply? || a.Enqueue? || a.Subscribe?
  }

  /** A step of a consumer up to its lookup of the reply. */
  predicate ByTaking(a: Action) {
    a.Pop? || a.NewOwn? || a.EnqueueOwn? || a.FetchReply?
  }

  lemma SessionJobKeeps(s: System, a: Action, w: Witness, j: JobId)
    requires Inv(s, w) && Enabled(s, a) && BySession(a)
    ensures JobOk(After(s, a), NextWitness(s, a, w), j)
  {
    assert JobOk(s, w, j) && JobOk(s, w, s.tables.nextID);
    match a {
      case NewRequest(_, _) =>
        if j == s.tables.nextID {
          NewRequestMakesJob(s, a, w);
        } else {
          NewRequestKeepsOtherJob(s, a, w, j);
        }
      case NewReply(i) =>
        assert ClientOk(s, w, i) && JobOk(s, w, s.clients[i].job);
        if j == s.tables.nextID {
          NewReplyMakesJob(s, a, w);
        } else {
          NewReplyKeepsOtherJob(s, a, w, j);
        }
      case RegisterReply(i) =>
        assert ClientOk(s, w, i) && JobOk(s, w, s.clients[i].job);
        RegisterReplyKeepsJob(s, a, w, j);
      case Enqueue(i) =>
        assert ClientOk(s, w, i) && JobOk(s, w, s.clients[i].job);
        EnqueueKeepsJob(s, a, w, j);
      case Subscribe(i, _) =>
        assert ClientOk(s, w, i) && JobOk(s, w, s.clients[i].job);
        SubscribeKeepsJob(s, a, w, j);
    }
  }

  lemma TakingJobKeeps(s: System, a: Action, w: Witness, j: JobId)
    requires Inv(s, w) && Enabled(s, a) && ByTaking(a)
    ensures JobOk(After(s, a), NextWitness(s, a, w), j)
  {
    assert JobOk(s, w, j) && JobOk(s, w, s.tables.nextID);
    match a {
      case Pop(c) =>
        assert ConsumerOk(s, w, c) && JobOk(s, w, s.tables.queue[0]);
        PoppedIsGone(s, j);
        PopKeepsJob(s, a, w, j);
      case NewOwn(c) =>
        assert ConsumerOk(s, w, c) && JobOk(s, w, s.consumers[c].job);
        if j == s.tables.nextID {
          NewOwnMakesJob(s, a, w);
        } else if j == s.consumers[c].job {
          NewOwnKeepsItsJob(s, a, w);
        } else if j in w.place {
          NewOwnKeepsKnownJob(s, a, w, j);
        } else {
          NewOwnKeepsUnknownJob(s, a, w, j);
        }
      case EnqueueOwn(c) =>
        assert ConsumerOk(s, w, c) && JobOk(s, w, s.consumers[c].own) && JobOk(s, w, s.consumers[c].job);
        EnqueueOwnKeepsJob(s, a, w, j);
      case FetchReply(c) =>
        assert ConsumerOk(s, w, c) && JobOk(s, w, s.consumers[c].job);
        assert s.consumers[c].job in w.reply ==> JobOk(s, w, w.reply[s.consumers[c].job]);
        FetchReplyKeepsJob(s, a, w, j);
    }
  }

  lemma EndingJobKeeps(s: System, a: Action, w: Witness, j: JobId)
    requires Inv(s, w) && Enabled(s, a) && !BySession(a) && !ByTaking(a)
    ensures JobOk(After(s, a), NextWitness(s, a, w), j)
  {
    assert JobOk(s, w, j) && JobOk(s, w, s.tables.nextID);
    match a {
      case Publish(c, _) =>
        assert ConsumerOk(s, w, c) && JobOk(s, w, s.consumers[c].job);
        PublishKeepsJob(s, a, w, j);
      case Finish(c) =>
        assert ConsumerOk(s, w, c) && JobOk(s, w, s.consumers[c].job);
        if j == s.consumers[c].job {
          FinishMovesJob(s, a, w);
        } else {
          FinishKeepsOtherJob(s, a, w, j);
        }
      case Reject(c) =>
        assert ConsumerOk(s, w, c) && JobOk(s, w, s.consumers[c].job);
        RejectKeepsJob(s, a, w, j);
      case BrokerStep(_) => BrokerStepKeepsJob(s, a, w, j);
    }
  }

  lemma SessionThreadsKeep(s: System, a: Action, w: Witness, i: ClientId, c: ConsumerId, t: Tid)
    requires Inv(s, w) && Enabled(s, a) && BySession(a)
    ensures ThreadsOk(After(s, a), NextWitness(s, a, w), i, c, t)
  {
    assert ThreadsOk(s, w, i, c, t) && JobOk(s, w, s.tables.nextID);
    match a {
      case NewRequest(_, _) => NewRequestKeepsThreads(s, a, w, i, c, t);
      case NewReply(i0) =>
        assert ClientOk(s, w, i0) && JobOk(s, w, s.clients[i0].job);
        NewReplyKeepsThreads(s, a, w, i, c, t);
      case RegisterReply(i0) =>
        assert ClientOk(s, w, i0) && JobOk(s, w, s.clients[i0].job);
        RegisterReplyKeepsThreads(s, a, w, i, c, t);
      case Enqueue(i0) =>
        assert ClientOk(s, w, i0) && JobOk(s, w, s.clients[i0].job);
        EnqueueKeepsThreads(s, a, w, i, c, t);
      case Subscribe(i0, _) =>
        assert ClientOk(s, w, i0) && JobOk(s, w, s.clients[i0].job);
        SubscribeKeepsThreads(s, a, w, i, c, t);
    }
  }

  lemma TakingThreadsKeep(s: System, a: Action, w: Witness, i: ClientId, c: ConsumerId, t: Tid)
    requires Inv(s, w) && Enabled(s, a) && ByTaking(a)
    ensures ThreadsOk(After(s, a), NextWitness(s, a, w), i, c, t)
  {
    assert ThreadsOk(s, w, i, c, t) && JobOk(s, w, s.tables.nextID);
    match a {
      case Pop(c0) =>
        assert ConsumerOk(s, w, c0) && JobOk(s, w, s.tables.queue[0]);
        PopKeepsThreads(s, a, w, i, c, t);
      case NewOwn(c0) =>
        assert ConsumerOk(s, w, c0) && JobOk(s, w, s.consumers[c0].job);
        NewOwnMovesConsumer(s, a, w);
        if c in s.consumers && c != c0 {
          NewOwnKeepsOtherConsumer(s, a, w, c);
        }
        NewOwnKeepsCalls(s, a, w, i, t);
      case EnqueueOwn(c0) =>
        assert ConsumerOk(s, w, c0) && JobOk(s, w, s.consumers[c0].own) && JobOk(s, w, s.consumers[c0].job);
        EnqueueOwnKeepsThreads(s, a, w, i, c, t);
      case FetchReply(c0) =>
        assert ConsumerOk(s, w, c0) && JobOk(s, w, s.consumers[c0].job);
        assert s.consumers[c0].job in w.reply ==> JobOk(s, w, w.reply[s.consumers[c0].job]);
        FetchReplyKeepsThreads(s, a, w, i, c, t);
    }
  }

  lemma EndingThreadsKeep(s: System, a: Action, w: Witness, i: ClientId, c: ConsumerId, t: Tid)
    requires Inv(s, w) && Enabled(s, a) && !BySession(a) && !ByTaking(a)
    ensures ThreadsOk(After(s, a), NextWitness(s, a, w), i, c, t)
  {
    assert ThreadsOk(s, w, i, c, t) && JobOk(s, w, s.tables.nextID);
    match a {
      case Publish(c0, _) =>
        assert ConsumerOk(s, w, c0) && JobOk(s, w, s.consumers[c0].job);
        PublishKeepsThreads(s, a, w, i, c, t);
      case Finish(c0) =>
        assert ConsumerOk(s, w, c0) && JobOk(s, w, s.consumers[c0].job);
        FinishKeepsThreads(s, a, w, i, c, t);
      case Reject(c0) =>
        assert ConsumerOk(s, w, c0) && JobOk(s, w, s.consumers[c0].job);
        RejectKeepsThreads(s, a, w, i, c, t);
      case BrokerStep(_) => BrokerStepKeepsThreads(s, a, w, i, c, t);
    }
  }

  lemma PoppedIsGone(s: System, j: JobId)
    requires QueueOk(s) && s.tables.queue != []
    ensures j in s.tables.queue[1..] <==> j in s.tables.queue && j != s.tables.queue[0]
  {
    var n := |s.popped|;
    assert forall k :: 0 <= k < |s.tables.queue| ==> s.tables.queue[k] == s.pushed[n + k];
    assert s.tables.queue == [s.tables.queue[0]] + s.tables.queue[1..];
  }

  lemma PushKeepsQueue(s: System, s': System, j: JobId)
    requires QueueOk(s) && j !in s.pushed
    requires s'.pushed == s.pushed + [j] && s'.tables.queue == s.tables.queue + [j] && s'.popped == s.popped
    ensures QueueOk(s')
  {
  }

  lemma PopKeepsQueue(s: System, s': System)
    requires QueueOk(s) && s.tables.queue != []
    requires s'.pushed == s.pushed && s'.tables.queue == s.tables.queue[1..] &&
             s'.popped == s.popped + [s.tables.queue[0]]
    ensures QueueOk(s')
  {
    assert s.tables.queue == [s.tables.queue[0]] + s.tables.queue[1..];
  }

  lemma QueueKeeps(s: System, a: Action, w: Witness)
    requires Inv(s, w) && Enabled(s, a)
    ensures QueueOk(After(s, a))
  {
    match a {
      case Enqueue(i) =>
        assert ClientOk(s, w, i) && JobOk(s, w, s.clients[i].job);
        PushKeepsQueue(s, After(s, a), s.clients[i].job);
      case EnqueueOwn(c) =>
        assert ConsumerOk(s, w, c) && JobOk(s, w, s.consumers[c].own);
        PushKeepsQueue(s, After(s, a), s.consumers[c].own);
      case Pop(c) => PopKeepsQueue(s, After(s, a));
      case _ =>
    }
  }

  lemma StepInv(s: System, a: Action, w: Witness)
    requires Inv(s, w) && Enabled(s, a)
    ensures Inv(After(s, a), NextWitness(s, a, w))
  {
    var s', w' := After(s, a), NextWitness(s, a, w);
    QueueKeeps(s, a, w);
    forall j ensures JobOk(s', w', j) {
      if BySession(a) {
        SessionJobKeeps(s, a, w, j);
      } else if ByTaking(a) {
        TakingJobKeeps(s, a, w, j);
      } else {
        EndingJobKeeps(s, a, w, j);
      }
    }
    forall i, c, t ensures ThreadsOk(s', w', i, c, t) {
      if BySession(a) {
        SessionThreadsKeep(s, a, w, i, c, t);
      } else if ByTaking(a) {
        TakingThreadsKeep(s, a, w, i, c, t);
      } else {
        EndingThreadsKeep(s, a, w, i, c, t);
      }
    }
    forall i | i in s'.clients ensures ClientOk(s', w', i) {
      assert ThreadsOk(s', w', i, 0, 0);
    }
    forall c | c in s'.consumers ensures ConsumerOk(s', w', c) {
      assert ThreadsOk(s', w', 0, c, 0);
    }
    forall t | t in s'.broker.pubs ensures PubCallOk(s', w', t) {
      assert ThreadsOk(s', w', 0, 0, t);
    }
    forall t | t in s'.broker.subs ensures SubCallOk(s', w', t) {
      assert ThreadsOk(s', w', 0, 0, t);
    }
  }

  lemma {:induction false} RunInv(cfg: BT.Config, r: seq<System>, acts: seq<Action>, i: nat) returns (w: Witness)
    requires Run(cfg, r, acts) && i < |r|
    ensures Inv(r[i], w)
  {
    if i == 0 {
      w := Witness(map[], map[], map[], map[], map[]);
    } else {
      var before := RunInv(cfg, r, acts, i - 1);
      assert Next(r[i - 1], r[i], acts[i - 1]);
      StepInv(r[i - 1], acts[i - 1], before);
      w := NextWitness(r[i - 1], acts[i - 1], before);
    }
  }

  /** The broker inside the system goes through a run of its own. */
  lemma {:induction false} BrokerRuns(cfg: BT.Config, r: seq<System>, acts: seq<Action>, i: nat)
    returns (rb: seq<B.State>, ab: seq<B.Action>)
    requires Run(cfg, r, acts) && i < |r|
    ensures B.Run(cfg, rb, ab) && rb[|ab|] == r[i].broker
  {
    if i == 0 {
      rb, ab := [r[0].broker], [];
    } else {
      rb, ab := BrokerRuns(cfg, r, acts, i - 1);
      var s := r[i - 1];
      assert Next(s, r[i], acts[i - 1]);
      match acts[i - 1] {
        case Subscribe(c, tid) =>
          rb, ab := B.ExtendRun(cfg, rb, ab, B.NewSubscribe(tid, KeyOf(s.clients[c].job), BT.Blocking));
        case Publish(c, tid) =>
          rb, ab := B.ExtendRun(cfg, rb, ab, B.NewPublish(tid, KeyOf(s.consumers[c].job), s.consumers[c].reply));
        case BrokerStep(a) => rb, ab := B.ExtendRun(cfg, rb, ab, a);
        case _ =>
      }
    }
  }

  /**
   * Uninterrupted, the session's steps do to the tables exactly what pushJob as a whole does, and leave the ID it
   * returns.
   */
  lemma PushJobStepByStep(s: System, i: ClientId)
    requires ClientAt(s, i) && s.clients[i].Made? && JobOfNow(s, s.clients[i].job)
    ensures Pushed(s.tables, s.clients[i].job).0 == AfterPush(s, i).tables
    ensures Pushed(s.tables, s.clients[i].job).1 ==
            match AfterPush(s, i).clients[i].pubJobID case Some(id) => id as int case None => -1
  {
  }

  predicate JobOfNow(s: System, j: JobId) {
    j < s.tables.nextID
  }

  function AfterPush(s: System, i: ClientId): (s': System)
    requires ClientAt(s, i) && s.clients[i].Made? && JobOfNow(s, s.clients[i].job)
    ensures i in s'.clients && s'.clients[i].Sent?
  {
    if HasPubJob(ClientType(s, i)) then After(After(After(s, NewReply(i)), RegisterReply(i)), Enqueue(i))
    else After(s, Enqueue(i))
  }

  // ---------- What holds in every run ----------

  /** Jobs leave the queue in the order they entered it, and none enters twice. */
  lemma QueueIsFifo(cfg: BT.Config, r: seq<System>, acts: seq<Action>, i: nat)
    requires Run(cfg, r, acts) && i < |r|
    ensures r[i].pushed == r[i].popped + r[i].tables.queue && Distinct(r[i].pushed)
  {
    var w := RunInv(cfg, r, acts, i);
  }

  ghost predicate AtSomeConsumer(s: System, j: JobId) {
    exists c :: BusyWith(s, c, j)
  }

  /** Every pushed Job is in the queue, with exactly one consumer, or done, and nowhere twice. */
  lemma PushedJobInOnePlace(cfg: BT.Config, r: seq<System>, acts: seq<Action>, i: nat, j: JobId)
    requires Run(cfg, r, acts) && i < |r|
    ensures var s := r[i];
            && (j in s.pushed <==> j in s.tables.queue || AtSomeConsumer(s, j) || j in s.done)
            && (j in s.tables.queue ==> !AtSomeConsumer(s, j) && j !in s.done)
            && (AtSomeConsumer(s, j) ==> j !in s.done)
            && (forall c, d :: BusyWith(s, c, j) && BusyWith(s, d, j) ==> c == d)
  {
    var s := r[i];
    var w := RunInv(cfg, r, acts, i);
    assert JobOk(s, w, j);
    forall c | BusyWith(s, c, j) ensures j in w.place && w.place[j] == AtConsumer(c) {
      assert ConsumerOk(s, w, c);
    }
  }

  /** getPubJob always finds the reply of its Job, of the type that answers it, so none of its assertions fails. */
  lemma LookupNeverMisses(cfg: BT.Config, r: seq<System>, acts: seq<Action>, i: nat, c: ConsumerId)
    requires Run(cfg, r, acts) && i < |acts| && acts[i] == FetchReply(c)
    ensures RunningAt(r[i], c) && LookupOk(r[i], r[i].consumers[c].job)
    ensures c in r[i + 1].consumers && r[i + 1].consumers[c].Fetched?
    ensures IsReplyTo(RunningType(r[i], c), r[i].tables.jobs[r[i + 1].consumers[c].reply])
  {
    var s := r[i];
    var w := RunInv(cfg, r, acts, i);
    assert Next(s, r[i + 1], acts[i]);
    assert ConsumerOk(s, w, c) && JobOk(s, w, s.consumers[c].job);
    assert s.consumers[c].job in w.reply ==> JobOk(s, w, w.reply[s.consumers[c].job]);
    FetchReplyKeepsThreads(s, acts[i], w, 0, c, 0);
    ReplyIsNextUndispatched(RunningType(s, c), s.tables.jobs[s.tables.replyMap[s.consumers[c].job]]);
  }

  /**
   * A queued Job, or one whose handler has not looked up its reply, has a reply waiting exactly if its type has one; no
   * two share a reply, and none waits once fetched.
   */
  lemma OneReplyWaits(cfg: BT.Config, r: seq<System>, acts: seq<Action>, i: nat, j: JobId, k: JobId)
    requires Run(cfg, r, acts) && i < |r| && j in r[i].pushed
    ensures var s := r[i];
            && j in s.tables.jobs
            && (j in s.tables.replyMap <==>
                  HasPubJob(s.tables.jobs[j]) &&
                    (j in s.tables.queue || exists c :: BusyWith(s, c, j) && Unfetched(s.consumers[c])))
            && (j in s.tables.replyMap ==> LookupOk(s, j))
            && (j in s.tables.replyMap && k in s.tables.replyMap && s.tables.replyMap[j] == s.tables.replyMap[k] ==>
               j == k)
  {
    var s := r[i];
    var w := RunInv(cfg, r, acts, i);
    assert JobOk(s, w, j) && JobOk(s, w, k);
    assert j in w.reply ==> JobOk(s, w, w.reply[j]);
    forall c | BusyWith(s, c, j) ensures w.place[j] == AtConsumer(c) {
      assert ConsumerOk(s, w, c);
    }
    if j in s.tables.replyMap && j !in s.tables.queue {
      assert BusyWith(s, w.place[j].c, j) && Unfetched(s.consumers[w.place[j].c]);
    }
  }

  ghost predicate PublishedBy(s: System, j: JobId, t: Tid) {
    t in s.broker.pubs && s.broker.pubs[t].key == KeyOf(j)
  }

  /**
   * Every publish is of one pushed Job, under its own key, and no Job is published twice; a finished Job with a reply
   * has been published.
   */
  lemma PublishedExactlyOnce(cfg: BT.Config, r: seq<System>, acts: seq<Action>, i: nat, j: JobId)
    requires Run(cfg, r, acts) && i < |r|
    ensures var s := r[i];
            && (forall t :: t in s.broker.pubs ==>
               JobOfKey(s.broker.pubs[t].key) in s.pushed && PublishedBy(s, JobOfKey(s.broker.pubs[t].key), t))
            && (forall t, u :: PublishedBy(s, j, t) && PublishedBy(s, j, u) ==> t == u)
            && (j in s.done && j in s.tables.jobs && HasPubJob(s.tables.jobs[j]) ==>
                  exists t :: PublishedBy(s, j, t) && s.broker.pubs[t].pc == B.PubDone)
  {
    var s := r[i];
    var w := RunInv(cfg, r, acts, i);
    assert JobOk(s, w, j);
    forall t | t in s.broker.pubs
      ensures JobOfKey(s.broker.pubs[t].key) in s.pushed && PublishedBy(s, JobOfKey(s.broker.pubs[t].key), t)
    {
      assert PubCallOk(s, w, t) && JobOk(s, w, JobOfKey(s.broker.pubs[t].key));
    }
    forall t | PublishedBy(s, j, t) ensures j in w.pubCall && w.pubCall[j] == t {
      assert PubCallOk(s, w, t);
      KeyNamesJob(j);
    }
    if j in s.done && j in s.tables.jobs && HasPubJob(s.tables.jobs[j]) {
      assert PublishedBy(s, j, w.pubCall[j]);
    }
  }

  /**
   * End to end: a session's blocking subscribe never aborts, and the Job it delivers is the reply that its own pushJob
   * prepared, of the type that answers its request.
   */
  lemma ClientGetsOwnReply(cfg: BT.Config, r: seq<System>, acts: seq<Action>, i: nat, m: ClientId)
    requires Run(cfg, r, acts) && i < |r| && m in r[i].clients && r[i].clients[m].Subscribed?
    ensures var s := r[i]; var cl := s.clients[m];
            && cl.job in s.tables.jobs && cl.pubJobID.Some? && cl.pubJobID.value in s.tables.jobs
            && IsReplyTo(s.tables.jobs[cl.job], s.tables.jobs[cl.pubJobID.value])
            && cl.tid in s.broker.subs && s.broker.subs[cl.tid].pc != B.Aborted
            && (D.HasContent(s.broker.subs[cl.tid]) ==> s.broker.subs[cl.tid].result.value.content == cl.pubJobID.value)
            && (s.broker.subs[cl.tid].pc == B.SubDone ==>
                  D.HasContent(s.broker.subs[cl.tid]) || s.broker.subs[cl.tid].result == Some(B.NoSession))
  {
    var s := r[i];
    var w := RunInv(cfg, r, acts, i);
    var cl := s.clients[m];
    assert ClientOk(s, w, m) && JobOk(s, w, cl.job) && SubCallOk(s, w, cl.tid);
    assert JobOk(s, w, w.reply[cl.job]);
    ReplyIsNextUndispatched(s.tables.jobs[cl.job], s.tables.jobs[w.reply[cl.job]]);
    KeyNamesJob(cl.job);
    forall t | t in s.broker.subs && s.broker.subs[t].key == KeyOf(cl.job) ensures t == cl.tid {
      assert SubCallOk(s, w, t);
    }
    var rb, ab := BrokerRuns(cfg, r, acts, i);
    D.SubscriberGetsPublishedJob(cfg, rb, ab, |ab|, KeyOf(cl.job), cl.tid);
    if D.HasContent(s.broker.subs[cl.tid]) {
      var t := D.Storing(s.broker, KeyOf(cl.job), s.broker.subs[cl.tid].result.value.content);
      assert PubCallOk(s, w, t);
    }
  }
}
