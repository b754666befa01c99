/** Jobs, the replies prepared for them, and the queues between the session threads and the job consumers. */
module Worker {
  import opened Options

  datatype JobType =
    | HaltMachine | TestJob
    | CreateNetworkFromFile | CreateNetwork | CreateNetworkReply
    | DestroyNetwork | DestroyNetworkReply
    | RunNetwork | RunNetworkMiniBatch | RunNetworkReply
    | BuildNetwork | BuildNetworkReply | ResetNetwork | ResetNetworkReply
    | SaveNetwork | SaveNetworkReply | LoadNetwork | LoadNetworkReply
    | StartInputDataProvider
    | GetMeasureItemName | GetMeasureItemNameReply | GetMeasures | GetMeasuresReply
    | RunNetworkWithInputData | RunNetworkWithInputDataReply
    | JobTypeMax

  /** pubJobTypeMap as Job::init builds it. */
  function PubJobType(t: JobType): JobType {
    match t
    case CreateNetworkFromFile => CreateNetworkReply
    case CreateNetwork => CreateNetworkReply
    case DestroyNetwork => DestroyNetworkReply
    case RunNetwork => RunNetworkReply
    case BuildNetwork => BuildNetworkReply
    case ResetNetwork => ResetNetworkReply
    case RunNetworkMiniBatch => RunNetworkReply
    case SaveNetwork => SaveNetworkReply
    case LoadNetwork => LoadNetworkReply
    case RunNetworkWithInputData => RunNetworkWithInputDataReply
    case GetMeasureItemName => GetMeasureItemNameReply
    case GetMeasures => GetMeasuresReply
    case _ => JobTypeMax
  }

  predicate HasPubJob(t: JobType) {
    PubJobType(t) != JobTypeMax
  }

  /** What the handler that handleJob dispatches to does about a reply. */
  datatype Handling = Publishes | Plain | Halts | Invalid

  function Dispatch(t: JobType): Handling {
    match t
    case HaltMachine => Halts
    case CreateNetworkFromFile => Publishes
    case CreateNetwork => Publishes
    case DestroyNetwork => Publishes
    case BuildNetwork => Publishes
    case ResetNetwork => Publishes
    case RunNetwork => Publishes
    case RunNetworkMiniBatch => Publishes
    case SaveNetwork => Publishes
    case LoadNetwork => Publishes
    case RunNetworkWithInputData => Publishes
    case StartInputDataProvider => Plain
    case GetMeasureItemName => Publishes
    case GetMeasures => Publishes
    case _ => Invalid
  }

  /** The dispatch and the reply table agree: exactly the handlers that publish have a reply prepared. */
  lemma PublishingHandlersHaveReplies(t: JobType)
    ensures Dispatch(t) == Publishes <==> HasPubJob(t)
    ensures HasPubJob(t) ==> !HasPubJob(PubJobType(t)) && Dispatch(PubJobType(t)) == Invalid
  {
  }

  /** The number of a type in the order of the source's enumeration. */
  function TypeCode(t: JobType): nat {
    match t
    case HaltMachine => 0
    case TestJob => 1
    case CreateNetworkFromFile => 2
    case CreateNetwork => 3
    case CreateNetworkReply => 4
    case DestroyNetwork => 5
    case DestroyNetworkReply => 6
    case RunNetwork => 7
    case RunNetworkMiniBatch => 8
    case RunNetworkReply => 9
    case BuildNetwork => 10
    case BuildNetworkReply => 11
    case ResetNetwork => 12
    case ResetNetworkReply => 13
    case SaveNetwork => 14
    case SaveNetworkReply => 15
    case LoadNetwork => 16
    case LoadNetworkReply => 17
    case StartInputDataProvider => 18
    case GetMeasureItemName => 19
    case GetMeasureItemNameReply => 20
    case GetMeasures => 21
    case GetMeasuresReply => 22
    case RunNetworkWithInputData => 23
    case RunNetworkWithInputDataReply => 24
    case JobTypeMax => 25
  }

  /** r is the first type after t in the enumeration that handleJob does not dispatch. */
  ghost predicate IsReplyTo(t: JobType, r: JobType) {
    && TypeCode(t) < TypeCode(r) && Dispatch(r) == Invalid
    && forall u :: TypeCode(t) < TypeCode(u) < TypeCode(r) ==> Dispatch(u) != Invalid
  }

  function Enumeration(): seq<JobType> {
    [HaltMachine, TestJob, CreateNetworkFromFile, CreateNetwork, CreateNetworkReply, DestroyNetwork,
     DestroyNetworkReply, RunNetwork, RunNetworkMiniBatch, RunNetworkReply, BuildNetwork, BuildNetworkReply,
     ResetNetwork, ResetNetworkReply, SaveNetwork, SaveNetworkReply, LoadNetwork, LoadNetworkReply,
     StartInputDataProvider, GetMeasureItemName, GetMeasureItemNameReply, GetMeasures, GetMeasuresReply,
     RunNetworkWithInputData, RunNetworkWithInputDataReply, JobTypeMax]
  }

  lemma CodeIsPosition(t: JobType)
    ensures TypeCode(t) < |Enumeration()| && Enumeration()[TypeCode(t)] == t
  {
    match t {
      case _ =>
    }
  }

  lemma SameCode(t: JobType, u: JobType)
    requires TypeCode(t) == TypeCode(u)
    ensures t == u
  {
    CodeIsPosition(t);
    CodeIsPosition(u);
  }

  /** If only dispatched types come between a type and an undispatched one, that one is the reply. */
  lemma NextUndispatched(t: JobType, between: JobType, r: JobType)
    requires Dispatch(r) == Invalid && Dispatch(between) != Invalid
    requires TypeCode(r) == TypeCode(t) + 1 ||
             (TypeCode(between) == TypeCode(t) + 1 && TypeCode(r) == TypeCode(t) + 2)
    ensures IsReplyTo(t, r)
  {
    forall u | TypeCode(t) < TypeCode(u) < TypeCode(r) ensures Dispatch(u) != Invalid {
      SameCode(u, between);
    }
  }

  lemma ReplyComesNext(t: JobType)
    requires HasPubJob(t)
    ensures IsReplyTo(t, PubJobType(t))
  {
    var between := if t == CreateNetworkFromFile then CreateNetwork else RunNetworkMiniBatch;
    NextUndispatched(t, between, PubJobType(t));
  }

  /** A type has a reply prepared exactly if its handler publishes, and the reply is the next type not dispatched. */
  lemma ReplyIsNextUndispatched(t: JobType, r: JobType)
    ensures HasPubJob(t) <==> Dispatch(t) == Publishes
    ensures HasPubJob(t) ==> (PubJobType(t) == r <==> IsReplyTo(t, r))
  {
    PublishingHandlersHaveReplies(t);
    if HasPubJob(t) {
      ReplyComesNext(t);
      if IsReplyTo(t, r) {
        SameCode(PubJobType(t), r);
      }
    }
  }

  /** Two types share a reply only if they are two ways to ask for the same: creating a network, or running it. */
  lemma SharedReplies(t: JobType, u: JobType)
    requires HasPubJob(t) && HasPubJob(u) && t != u
    ensures PubJobType(t) == PubJobType(u) <==>
            {t, u} == {CreateNetworkFromFile, CreateNetwork} || {t, u} == {RunNetwork, RunNetworkMiniBatch}
  {
  }

  ghost predicate AnswersSome(r: JobType) {
    exists t :: Dispatch(t) == Publishes && IsReplyTo(t, r)
  }

  lemma RequestOf(r: JobType) returns (t: JobType)
    requires Dispatch(r) == Invalid && r != TestJob && r != JobTypeMax
    ensures HasPubJob(t) && PubJobType(t) == r
  {
    t := match r
      case CreateNetworkReply => CreateNetwork
      case DestroyNetworkReply => DestroyNetwork
      case RunNetworkReply => RunNetwork
      case BuildNetworkReply => BuildNetwork
      case ResetNetworkReply => ResetNetwork
      case SaveNetworkReply => SaveNetwork
      case LoadNetworkReply => LoadNetwork
      case GetMeasureItemNameReply => GetMeasureItemName
      case GetMeasuresReply => GetMeasures
      case _ => RunNetworkWithInputData;
  }

  /** Every type is a request that is answered, one of two that are not, a reply, the test type, or the end marker. */
  lemma RolesOfTypes(t: JobType)
    ensures Dispatch(t) == Halts <==> t == HaltMachine
    ensures Dispatch(t) == Plain <==> t == StartInputDataProvider
    ensures Dispatch(t) == Invalid <==> t == TestJob || t == JobTypeMax || AnswersSome(t)
  {
    if Dispatch(t) == Invalid && t != TestJob && t != JobTypeMax {
      var request := RequestOf(t);
      PublishingHandlersHaveReplies(request);
      ReplyComesNext(request);
      assert AnswersSome(t);
    }
  }

  type JobId = nat

  /** jobIDGen, the type of every Job made so far, reqPubJobMap and jobQueue. */
  datatype Tables = Tables(nextID: JobId, jobs: map<JobId, JobType>, replyMap: map<JobId, JobId>, queue: seq<JobId>)

  function Created(b: Tables, t: JobType): Tables {
    b.(nextID := b.nextID + 1, jobs := b.jobs[b.nextID := t])
  }

  function Prepared(b: Tables, job: JobId, reply: JobId): Tables {
    b.(replyMap := b.replyMap[job := reply])
  }

  function Queued(b: Tables, job: JobId): Tables {
    b.(queue := b.queue + [job])
  }

  function Popped(b: Tables): Tables
    requires b.queue != []
  {
    b.(queue := b.queue[1..])
  }

  function Fetched(b: Tables, job: JobId): Tables {
    b.(replyMap := b.replyMap - {job})
  }

  /** The state pushJob leaves, and the ID it returns: that of the reply Job, or -1. */
  function Pushed(b: Tables, job: JobId): (Tables, int)
    requires job in b.jobs
  {
    if HasPubJob(b.jobs[job]) then
      (Queued(Prepared(Created(b, PubJobType(b.jobs[job])), job, b.nextID), job), b.nextID as int)
    else
      (Queued(b, job), -1)
  }

  class JobServer {
    var nextID: JobId
    var jobs: map<JobId, JobType>
    var reqPubJobMap: map<JobId, JobId>
    var jobQueue: seq<JobId>
    var jcReadyQueue: seq<int>

    ghost function View(): Tables
      reads this
    {
      Tables(nextID, jobs, reqPubJobMap, jobQueue)
    }

    constructor (jobConsumerCount: nat)
      ensures View() == Tables(0, map[], map[], [])
      ensures jcReadyQueue == seq(jobConsumerCount, i => i)
    {
      nextID, jobs, reqPubJobMap, jobQueue := 0, map[], map[], [];
      var ready: seq<int> := [];
      for i := 0 to jobConsumerCount
        invariant ready == seq(i, j => j)
      {
        ready := ready + [i];
      }
      jcReadyQueue := ready;
    }

    method NewJob(t: JobType) returns (job: JobId)
      requires t != JobTypeMax
      modifies `nextID, `jobs
      ensures job == old(nextID) && View() == Created(old(View()), t)
      ensures nextID == old(nextID) + 1 && jobs == old(jobs)[old(nextID) := t]
    {
      job := nextID;
      nextID, jobs := nextID + 1, jobs[job := t];
    }

    method PushJob(job: JobId) returns (pubJobID: int)
      requires job in jobs
      modifies `nextID, `jobs, `reqPubJobMap, `jobQueue
      ensures (View(), pubJobID) == Pushed(old(View()), job)
      // the reply Job gets the next ID and the type that answers the request, and waits under the request's ID
      ensures Dispatch(old(jobs)[job]) == Publishes ==>
                && pubJobID == old(nextID) && nextID == old(nextID) + 1
                && jobs == old(jobs)[old(nextID) := jobs[old(nextID)]]
                && IsReplyTo(old(jobs)[job], jobs[old(nextID)])
                && reqPubJobMap == old(reqPubJobMap)[job := old(nextID)]
      ensures Dispatch(old(jobs)[job]) != Publishes ==>
                pubJobID == -1 && nextID == old(nextID) && jobs == old(jobs) && reqPubJobMap == old(reqPubJobMap)
      ensures jobQueue == old(jobQueue) + [job]
    {
      ReplyIsNextUndispatched(jobs[job], PubJobType(jobs[job]));
      pubJobID := -1;
      var pubType := PubJobType(jobs[job]);
      if pubType != JobTypeMax {
        var pubJob := NewJob(pubType);
        reqPubJobMap := reqPubJobMap[job := pubJob];
        pubJobID := pubJob;
      }
      jobQueue := jobQueue + [job];
    }

    method PopJob() returns (job: Option<JobId>)
      modifies `jobQueue
      ensures if old(jobQueue) == [] then job == None && View() == old(View())
              else job == Some(old(jobQueue)[0]) && View() == Popped(old(View()))
      ensures old(jobQueue) == (if job.Some? then [job.value] else []) + jobQueue
    {
      if jobQueue == [] {
        return None;
      }
      job := Some(jobQueue[0]);
      jobQueue := jobQueue[1..];
    }

    method GetPubJob(job: JobId) returns (pubJob: JobId)
      requires job in reqPubJobMap
      modifies `reqPubJobMap
      ensures pubJob == old(reqPubJobMap)[job] && View() == Fetched(old(View()), job)
      ensures job !in reqPubJobMap && reqPubJobMap[job := pubJob] == old(reqPubJobMap)
    {
      pubJob := reqPubJobMap[job];
      reqPubJobMap := reqPubJobMap - {job};
    }

    method InsertJCReadyQueue(consumerIdx: int)
      modifies `jcReadyQueue
      ensures jcReadyQueue == old(jcReadyQueue) + [consumerIdx]
    {
      jcReadyQueue := jcReadyQueue + [consumerIdx];
    }

    /** Takes the first count ready consumers, or all of them if there are fewer. */
    method GetReadyJCs(count: int) returns (result: seq<int>)
      modifies `jcReadyQueue
      ensures result + jcReadyQueue == old(jcReadyQueue)
      ensures |result| == if count < 0 then 0 else if count < |old(jcReadyQueue)| then count else |old(jcReadyQueue)|
    {
      result := [];
      var i := 0;
      while i < count
        invariant 0 <= i == |result| && (i <= count || i == 0)
        invariant result + jcReadyQueue == old(jcReadyQueue)
      {
        if jcReadyQueue == [] {
          break;
        }
        result, jcReadyQueue := result + [jcReadyQueue[0]], jcReadyQueue[1..];
        i := i + 1;
      }
    }
  }
}
