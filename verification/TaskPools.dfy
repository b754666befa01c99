/** The free-list allocator of tasks, and a task consumer's pass over its queue. */
module TaskPools {
  import opened Options

  datatype TaskType = AllocTensor | UpdateTensor | RunPlan | AllocLayer

  /** A pool element: its pool, and its ID there. */
  datatype Elem = Elem(taskType: TaskType, elemID: nat)

  /** The TASKPOOL_*_ELEM_COUNT parameters. */
  datatype Config = Config(allocTensor: nat, updateTensor: nat, runPlan: nat, allocLayer: nat) {
    function Count(t: TaskType): nat {
      match t
      case AllocTensor => allocTensor
      case UpdateTensor => updateTensor
      case RunPlan => runPlan
      case AllocLayer => allocLayer
    }

    predicate Valid(e: Elem) {
      e.elemID < Count(e.taskType)
    }
  }

  type FreeLists = map<TaskType, seq<nat>>

  predicate AllPools(free: FreeLists) {
    forall t: TaskType :: t in free
  }

  function Released(free: FreeLists, e: Elem): FreeLists
    requires e.taskType in free
  {
    free[e.taskType := free[e.taskType] + [e.elemID]]
  }

  /** Whether the handler of a task may report it unfinished. */
  predicate MayRemain(t: TaskType) {
    t == UpdateTensor || t == RunPlan
  }

  /** The tasks of a pass that stay for the next one. */
  function Unfinished(tasks: seq<Elem>, done: Elem -> bool): seq<Elem> {
    if tasks == [] then []
    else Unfinished(tasks[..|tasks| - 1], done) + if done(tasks[|tasks| - 1]) then [] else [tasks[|tasks| - 1]]
  }

  /** The positions of the tasks with a property. */
  function Positions(tasks: seq<Elem>, p: Elem -> bool): seq<nat> {
    if tasks == [] then []
    else Positions(tasks[..|tasks| - 1], p) + if p(tasks[|tasks| - 1]) then [|tasks| - 1] else []
  }

  lemma {:induction false} PositionsInOrder(tasks: seq<Elem>, p: Elem -> bool)
    ensures forall k: nat :: k in Positions(tasks, p) <==> k < |tasks| && p(tasks[k])
    ensures forall j, k :: 0 <= j < k < |Positions(tasks, p)| ==> Positions(tasks, p)[j] < Positions(tasks, p)[k]
  {
    if tasks != [] {
      var n := |tasks| - 1;
      var front := Positions(tasks[..n], p);
      PositionsInOrder(tasks[..n], p);
      forall j | 0 <= j < |front| ensures front[j] < n {
        assert front[j] in front;
      }
    }
  }

  /** The unfinished tasks are those at the positions of tasks not done, each once and in order. */
  lemma {:induction false} UnfinishedInOrder(tasks: seq<Elem>, done: Elem -> bool)
    ensures var pos := Positions(tasks, e => !done(e));
            && |Unfinished(tasks, done)| == |pos|
            && forall k :: 0 <= k < |pos| ==> pos[k] < |tasks| && Unfinished(tasks, done)[k] == tasks[pos[k]]
  {
    if tasks != [] {
      UnfinishedInOrder(tasks[..|tasks| - 1], done);
    }
  }

  /** The free lists after a pass: finished tasks go back, except those that their requester gives back itself. */
  function ReleasedAll(free: FreeLists, tasks: seq<Elem>, done: Elem -> bool): (r: FreeLists)
    requires AllPools(free)
    ensures AllPools(r)
  {
    if tasks == [] then free
    else
      var before := ReleasedAll(free, tasks[..|tasks| - 1], done);
      var e := tasks[|tasks| - 1];
      if done(e) && e.taskType != AllocTensor then Released(before, e) else before
  }

  /** Each free list grows at its end by the IDs of the pool's finished tasks, in order; that of AllocTensor stays. */
  lemma {:induction false} ReleasedInOrder(free: FreeLists, tasks: seq<Elem>, done: Elem -> bool, t: TaskType)
    requires AllPools(free)
    ensures var pos := Positions(tasks, e => done(e) && e.taskType == t != AllocTensor);
            && (forall k :: 0 <= k < |pos| ==> pos[k] < |tasks|)
            && ReleasedAll(free, tasks, done)[t] ==
               free[t] + seq(|pos|, k requires 0 <= k < |pos| && pos[k] < |tasks| => tasks[pos[k]].elemID)
  {
    if tasks != [] {
      ReleasedInOrder(free, tasks[..|tasks| - 1], done, t);
    }
  }

  class TaskServer {
    const cfg: Config
    var freeElemIDList: FreeLists
    var tasks: seq<Elem>
    var remainTasks: seq<Elem>

    ghost predicate Valid()
      reads this
    {
      AllPools(freeElemIDList)
    }

    constructor (cfg: Config)
      ensures Valid() && this.cfg == cfg && tasks == [] && remainTasks == []
      ensures forall t: TaskType :: freeElemIDList[t] == seq(cfg.Count(t), i => i)
    {
      this.cfg := cfg;
      tasks, remainTasks := [], [];
      var alloc := AllocTaskPool(cfg.allocTensor);
      var update := AllocTaskPool(cfg.updateTensor);
      var run := AllocTaskPool(cfg.runPlan);
      var layer := AllocTaskPool(cfg.allocLayer);
      freeElemIDList := map[AllocTensor := alloc, UpdateTensor := update, RunPlan := run, AllocLayer := layer];
      new;
      forall t: TaskType ensures t in freeElemIDList && freeElemIDList[t] == seq(cfg.Count(t), i => i) {
        match t {
          case AllocTensor =>
          case UpdateTensor =>
          case RunPlan =>
          case AllocLayer =>
        }
      }
    }

    static method AllocTaskPool(elemCount: nat) returns (ids: seq<nat>)
      ensures ids == seq(elemCount, i => i)
    {
      ids := [];
      for i := 0 to elemCount
        invariant ids == seq(i, j => j)
      {
        ids := ids + [i];
      }
    }

    method GetElem(taskType: TaskType) returns (elem: Option<Elem>)
      requires Valid()
      modifies `freeElemIDList
      ensures Valid()
      ensures var free := old(freeElemIDList)[taskType];
              if free == [] then elem == None && freeElemIDList == old(freeElemIDList)
              else elem == Some(Elem(taskType, free[0])) && freeElemIDList == old(freeElemIDList)[taskType := free[1..]]
    {
      if freeElemIDList[taskType] == [] {
        return None;
      }
      elem := Some(Elem(taskType, freeElemIDList[taskType][0]));
      freeElemIDList := freeElemIDList[taskType := freeElemIDList[taskType][1..]];
    }

    method ReleaseElem(elem: Elem)
      requires Valid()
      modifies `freeElemIDList
      ensures Valid() && freeElemIDList == Released(old(freeElemIDList), elem)
      ensures var t := elem.taskType; freeElemIDList == old(freeElemIDList)[t := old(freeElemIDList)[t] + [elem.elemID]]
    {
      freeElemIDList := Released(freeElemIDList, elem);
    }

    /** add*Task: takes an element and queues it. The source stops the server when the pool is empty. */
    method AddTask(taskType: TaskType) returns (elem: Elem)
      requires Valid() && freeElemIDList[taskType] != []
      modifies `freeElemIDList, `tasks
      ensures Valid() && elem == Elem(taskType, old(freeElemIDList)[taskType][0]) && tasks == old(tasks) + [elem]
      ensures freeElemIDList == old(freeElemIDList)[taskType := old(freeElemIDList)[taskType][1..]]
    {
      var taken := GetElem(taskType);
      elem := taken.value;
      tasks := tasks + [elem];
    }

    /** The lock region at the start of a pass. */
    method DrainQueue() returns (batch: seq<Elem>)
      modifies `tasks
      ensures tasks == [] && batch == old(tasks)
    {
      batch := [];
      while tasks != []
        invariant batch + tasks == old(tasks)
        decreases |tasks|
      {
        batch, tasks := batch + [tasks[0]], tasks[1..];
      }
    }

    /** One pass of the consumer: all queued tasks, then those left over; what is not done is kept, in order. */
    method ConsumerPass(done: Elem -> bool) returns (hasRemainTask: bool)
      requires Valid()
      modifies this
      ensures Valid() && tasks == []
      ensures remainTasks == Unfinished(old(tasks + remainTasks), done) && (hasRemainTask <==> remainTasks != [])
      ensures freeElemIDList == ReleasedAll(old(freeElemIDList), old(tasks + remainTasks), done)
    {
      var batch := DrainQueue();
      for i := 0 to |remainTasks|
        invariant batch == old(tasks) + remainTasks[..i] && remainTasks == old(remainTasks)
        invariant tasks == [] && freeElemIDList == old(freeElemIDList)
      {
        batch := batch + [remainTasks[i]];
      }
      assert batch == old(tasks + remainTasks);
      remainTasks, hasRemainTask := [], false;
      for i := 0 to |batch|
        invariant Valid() && tasks == [] && (hasRemainTask <==> remainTasks != [])
        invariant remainTasks == Unfinished(batch[..i], done)
        invariant freeElemIDList == ReleasedAll(old(freeElemIDList), batch[..i], done)
      {
        assert batch[..i + 1][..i] == batch[..i];
        var taskDone := done(batch[i]);
        if !taskDone {
          remainTasks, hasRemainTask := remainTasks + [batch[i]], true;
        } else if batch[i].taskType != AllocTensor {
          ReleaseElem(batch[i]);
        }
      }
      assert batch[..|batch|] == batch;
    }
  }

  /** How often an element occurs in its free list. */
  function FreeCount(free: FreeLists, e: Elem): nat
    requires AllPools(free)
  {
    multiset(free[e.taskType])[e.elemID]
  }

  lemma {:induction false} UnfinishedCount(tasks: seq<Elem>, done: Elem -> bool, e: Elem)
    ensures multiset(Unfinished(tasks, done))[e] == if done(e) then 0 else multiset(tasks)[e]
  {
    if tasks != [] {
      var front, last := tasks[..|tasks| - 1], tasks[|tasks| - 1];
      UnfinishedCount(front, done, e);
      assert tasks == front + [last];
    }
  }

  lemma {:induction false} ReleasedCount(free: FreeLists, tasks: seq<Elem>, done: Elem -> bool, e: Elem)
    requires AllPools(free)
    ensures FreeCount(ReleasedAll(free, tasks, done), e) ==
            FreeCount(free, e) + if done(e) && e.taskType != AllocTensor then multiset(tasks)[e] else 0
  {
    if tasks != [] {
      var front, last := tasks[..|tasks| - 1], tasks[|tasks| - 1];
      ReleasedCount(free, front, done, e);
      assert tasks == front + [last];
    }
  }

  /**
   * A pass neither drops nor duplicates a task: each one stays, goes back to its pool, or is for its requester to give
   * back.
   */
  lemma PassConserves(free: FreeLists, tasks: seq<Elem>, done: Elem -> bool, e: Elem)
    requires AllPools(free)
    ensures var left, free' := multiset(Unfinished(tasks, done))[e], ReleasedAll(free, tasks, done);
            && (e.taskType != AllocTensor ==> left + FreeCount(free', e) == multiset(tasks)[e] + FreeCount(free, e))
            && (e.taskType == AllocTensor ==>
               FreeCount(free', e) == FreeCount(free, e) && (!done(e) ==> left == multiset(tasks)[e]))
            && (done(e) ==> left == 0)
  {
    UnfinishedCount(tasks, done, e);
    ReleasedCount(free, tasks, done, e);
  }
}
