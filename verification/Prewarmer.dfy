/**
 * The account prewarmer (service/account_prewarmer.go): three bounded lanes of tasks, a table
 * of task states and a set of roots being warmed, shared by producers and a pool of workers.
 * A promoted task leaves a stale copy in its normal lane, and a superseded exact root leaves
 * one in the root lane; beginPendingTask passes over them.  The locked sections are given here
 * as a class; PrewarmEngine interleaves any number of producers and workers over them.
 */
module PrewarmPool {
  type Root = nat

  datatype Task = RootTask(root: Root) | AccountTask(workchain: int, account: nat)

  datatype TaskState = Queued | Running | Urgent

  datatype Lane = AccountLane | RootLane | UrgentLane

  datatype Pool = Pool(
    started: bool, closed: bool, cancelled: bool,
    states: map<Task, TaskState>,
    warming: set<Root>,
    accounts: seq<Task>, roots: seq<Task>, urgents: seq<Task>)

  function Accepting(p: Pool): (r: bool) {
    p.started && !p.closed && !p.cancelled
  }

  function LaneOf(p: Pool, lane: Lane): (r: seq<Task>) {
    match lane
    case AccountLane => p.accounts
    case RootLane => p.roots
    case UrgentLane => p.urgents
  }

  function WithLane(p: Pool, lane: Lane, tasks: seq<Task>): (r: Pool) {
    match lane
    case AccountLane => p.(accounts := tasks)
    case RootLane => p.(roots := tasks)
    case UrgentLane => p.(urgents := tasks)
  }

  /** The state a copy received from a lane must find its task in. */
  function Want(lane: Lane): (r: TaskState) {
    if lane.UrgentLane? then Urgent else Queued
  }

  function NormalLane(t: Task): (r: Lane) {
    if t.RootTask? then RootLane else AccountLane
  }

  /** enqueueLocked: whether a task is queued now, and the pool afterwards. */
  function Enqueued(p: Pool, t: Task, capacity: nat): (r: (bool, Pool)) {
    var lane := LaneOf(p, NormalLane(t));
    if !Accepting(p) || t in p.states || |lane| >= capacity then (false, p)
    else (true, WithLane(p, NormalLane(t), lane + [t]).(states := p.states[t := Queued]))
  }

  function EnqueuedRoot(p: Pool, root: Root, capacity: nat): (r: (bool, Pool)) {
    if root in p.warming then (false, p) else Enqueued(p, RootTask(root), capacity)
  }

  /** PrewarmAccountNow: a new or a merely queued account goes to the urgent lane. */
  function Promoted(p: Pool, t: Task, workers: nat): (r: (bool, Pool)) {
    if !Accepting(p) || (t in p.states && p.states[t] != Queued) || |p.urgents| >= workers then (false, p)
    else (true, p.(urgents := p.urgents + [t], states := p.states[t := Urgent]))
  }

  function Begun(p: Pool, t: Task, want: TaskState): (r: (bool, Pool)) {
    if t !in p.states || p.states[t] != want then (false, p)
    else if p.cancelled then (false, p.(states := p.states - {t}))
    else (true, p.(states := p.states[t := Running]))
  }

  /** claimRoot: nobody warms the root, and an exact task for it is superseded unless it has begun. */
  function Claimed(p: Pool, t: Task, root: Root): (r: (bool, Pool)) {
    var exact := RootTask(root);
    if root in p.warming then (false, p)
    else if t.AccountTask? && exact in p.states then
      if p.states[exact] != Queued then (false, p)
      else (true, p.(states := p.states - {exact}, warming := p.warming + {root}))
    else (true, p.(warming := p.warming + {root}))
  }

  function Received(p: Pool, lane: Lane): (r: Pool)
    requires LaneOf(p, lane) != []
  {
    WithLane(p, lane, LaneOf(p, lane)[1..])
  }

  class AccountPrewarmer {
    const workers: nat
    const queueSize: nat
    var started: bool
    var closed: bool
    var cancelled: bool
    var taskStates: map<Task, TaskState>
    var warmingRoots: set<Root>
    var accountTasks: seq<Task>
    var rootTasks: seq<Task>
    var urgentTasks: seq<Task>

    function Contents(): (p: Pool)
      reads this
    {
      Pool(started, closed, cancelled, taskStates, warmingRoots, accountTasks, rootTasks, urgentTasks)
    }

    ghost predicate Valid()
      reads this
    {
      |accountTasks| <= queueSize && |rootTasks| <= queueSize && |urgentTasks| <= workers
    }

    constructor (workers: nat, queueSize: nat)
      requires workers > 0 && queueSize > 0
      ensures Valid() && this.workers == workers && this.queueSize == queueSize
      ensures Contents() == Pool(false, false, false, map[], {}, [], [], [])
    {
      this.workers, this.queueSize := workers, queueSize;
      started, closed, cancelled := false, false, false;
      taskStates, warmingRoots := map[], {};
      accountTasks, rootTasks, urgentTasks := [], [], [];
    }

    method EnqueueLocked(task: Task) returns (queued: bool)
      requires Valid()
      modifies this
      ensures Valid() && (queued, Contents()) == Enqueued(old(Contents()), task, queueSize)
    {
      if !(started && !closed && !cancelled) {
        return false;
      }
      if task in taskStates {
        return false;
      }
      ghost var before := taskStates;
      taskStates := taskStates[task := Queued];
      if task.RootTask? && |rootTasks| < queueSize {
        rootTasks := rootTasks + [task];
        return true;
      }
      if task.AccountTask? && |accountTasks| < queueSize {
        accountTasks := accountTasks + [task];
        return true;
      }
      taskStates := taskStates - {task};
      assert taskStates == before;
      return false;
    }

    method EnqueueRoot(root: Root) returns (queued: bool)
      requires Valid()
      modifies this
      ensures Valid() && (queued, Contents()) == EnqueuedRoot(old(Contents()), root, queueSize)
    {
      if root in warmingRoots {
        return false;
      }
      queued := EnqueueLocked(RootTask(root));
    }

    method PrewarmAccountNow(workchain: int, account: nat) returns (queued: bool)
      requires Valid()
      modifies this
      ensures Valid() && (queued, Contents()) == Promoted(old(Contents()), AccountTask(workchain, account), workers)
    {
      var task := AccountTask(workchain, account);
      if !(started && !closed && !cancelled) {
        return false;
      }
      if task in taskStates && taskStates[task] != Queued {
        return false;
      }
      if |urgentTasks| >= workers {
        return false;
      }
      urgentTasks := urgentTasks + [task];
      taskStates := taskStates[task := Urgent];
      return true;
    }
  }
}
