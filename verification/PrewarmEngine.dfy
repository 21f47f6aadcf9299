/** The prewarmer's producers and workers, interleaved in any way (service/account_prewarmer.go). */
module PrewarmEngine {
  import opened PrewarmPool

  datatype Config = Config(workers: nat, queueSize: nat)

  /** Where a worker is in runWorker and processTask. */
  datatype Worker =
    | Free
    | Holding(task: Task, want: TaskState)
    | Working(task: Task)
    | Resolved(task: Task, root: Root)
    | Warming(task: Task, root: Root)
    | Ending(task: Task)
    | Stopped

  datatype State = State(pool: Pool, workers: map<nat, Worker>)

  datatype Step =
    | Start(ids: set<nat>)
    | EnqueueRoot(root: Root)
    | EnqueueAccount(workchain: int, account: nat)
    | PrewarmNow(workchain: int, account: nat)
    | Receive(worker: nat, lane: Lane)
    | Begin(worker: nat)
    | Resolve(worker: nat, root: Root, fails: bool)
    | Claim(worker: nat)
    | Release(worker: nat)
    | Complete(worker: nat)
    | Exit(worker: nat)
    | Cancel
    | Close
    | Clear

  function Initial(): (s: State) {
    State(Pool(false, false, false, map[], {}, [], [], []), map[])
  }

  predicate Active(w: Worker) {
    w.Working? || w.Resolved? || w.Warming? || w.Ending?
  }

  predicate Enabled(c: Config, s: State, step: Step) {
    match step
    case Start(ids) => !s.pool.closed && !s.pool.started && |ids| == c.workers
    case EnqueueRoot(_) => true
    case EnqueueAccount(_, _) => true
    case PrewarmNow(_, _) => true
    case Receive(w, lane) => w in s.workers && s.workers[w].Free? && LaneOf(s.pool, lane) != []
    case Begin(w) => w in s.workers && s.workers[w].Holding?
    case Resolve(w, _, _) => w in s.workers && s.workers[w].Working?
    case Claim(w) => w in s.workers && s.workers[w].Resolved?
    case Release(w) => w in s.workers && s.workers[w].Warming?
    case Complete(w) => w in s.workers && s.workers[w].Ending?
    case Exit(w) => w in s.workers && s.workers[w].Free? && s.pool.cancelled
    case Cancel => s.pool.started
    case Close => true
    case Clear => s.pool.closed && forall w :: w in s.workers ==> s.workers[w].Stopped?
  }

  function Put(s: State, w: nat, pool: Pool, worker: Worker): (r: State) {
    State(pool, s.workers[w := worker])
  }

  function Next(c: Config, s: State, step: Step): (r: State) {
    if !Enabled(c, s, step) then s
    else
      match step
      case Start(ids) => State(s.pool.(started := true), map w | w in ids :: Free)
      case EnqueueRoot(root) => s.(pool := EnqueuedRoot(s.pool, root, c.queueSize).1)
      case EnqueueAccount(workchain, account) =>
        s.(pool := Enqueued(s.pool, AccountTask(workchain, account), c.queueSize).1)
      case PrewarmNow(workchain, account) => s.(pool := Promoted(s.pool, AccountTask(workchain, account), c.workers).1)
      case Receive(w, lane) => Put(s, w, Received(s.pool, lane), Holding(LaneOf(s.pool, lane)[0], Want(lane)))
      case Begin(w) =>
        var t := s.workers[w].task;
        var (begun, pool) := Begun(s.pool, t, s.workers[w].want);
        Put(s, w, pool, if begun then Working(t) else Free)
      case Resolve(w, root, fails) =>
        var t := s.workers[w].task;
        Put(s, w, s.pool, if t.RootTask? then Resolved(t, t.root) else if fails then Ending(t) else Resolved(t, root))
      case Claim(w) =>
        var (t, root) := (s.workers[w].task, s.workers[w].root);
        var (claimed, pool) := Claimed(s.pool, t, root);
        Put(s, w, pool, if claimed then Warming(t, root) else Ending(t))
      case Release(w) => Put(s, w, s.pool.(warming := s.pool.warming - {s.workers[w].root}), Ending(s.workers[w].task))
      case Complete(w) => Put(s, w, s.pool.(states := s.pool.states - {s.workers[w].task}), Free)
      case Exit(w) => Put(s, w, s.pool, Stopped)
      case Cancel => s.(pool := s.pool.(cancelled := true))
      case Close => s.(pool := s.pool.(closed := true, cancelled := true))
      case Clear => s.(pool := s.pool.(states := map[], warming := {}))
  }

  function Run(c: Config, steps: seq<Step>): (s: State) {
    if steps == [] then Initial() else Next(c, Run(c, steps[..|steps| - 1]), steps[|steps| - 1])
  }

  // What every step keeps.

  /** An active worker's task is marked running. */
  ghost predicate MarkedRunning(states: map<Task, TaskState>, workers: map<nat, Worker>) {
    forall w :: w in workers && Active(workers[w]) ==> workers[w].task in states && states[workers[w].task] == Running
  }

  ghost predicate OneRunner(workers: map<nat, Worker>) {
    forall v, w :: v in workers && w in workers && v != w && Active(workers[v]) && Active(workers[w]) ==>
        workers[v].task != workers[w].task
  }

  predicate Runs(workers: map<nat, Worker>, w: nat, t: Task) {
    w in workers && Active(workers[w]) && workers[w].task == t
  }

  ghost predicate HasRunner(workers: map<nat, Worker>, t: Task) {
    exists w :: Runs(workers, w, t)
  }

  /** A warming worker's root is in the set. */
  ghost predicate MarkedWarming(warming: set<Root>, workers: map<nat, Worker>) {
    forall w :: w in workers && workers[w].Warming? ==> workers[w].root in warming
  }

  ghost predicate OneWarmer(workers: map<nat, Worker>) {
    forall v, w :: v in workers && w in workers && v != w && workers[v].Warming? && workers[w].Warming? ==>
        workers[v].root != workers[w].root
  }

  predicate Warms(workers: map<nat, Worker>, w: nat, root: Root) {
    w in workers && workers[w].Warming? && workers[w].root == root
  }

  ghost predicate HasWarmer(workers: map<nat, Worker>, root: Root) {
    exists w :: Warms(workers, w, root)
  }

  /** A copy of a task that a worker has received and not yet tried, wanting this state. */
  ghost predicate InHand(workers: map<nat, Worker>, t: Task, want: TaskState) {
    exists w :: w in workers && workers[w] == Holding(t, want)
  }

  /** The lane in which a pending task's copy waits. */
  function PendingLane(t: Task, state: TaskState): (r: Lane) {
    if state.Urgent? then UrgentLane else NormalLane(t)
  }

  ghost predicate Tracked(p: Pool, workers: map<nat, Worker>, t: Task)
    requires t in p.states
  {
    if p.states[t].Running? then HasRunner(workers, t)
    else t in LaneOf(p, PendingLane(t, p.states[t])) || InHand(workers, t, p.states[t])
  }

  ghost predicate TasksOk(p: Pool, workers: map<nat, Worker>) {
    && MarkedRunning(p.states, workers)
    && OneRunner(workers)
    && (forall w :: w in workers && workers[w].Holding? ==> !workers[w].want.Running?)
    && forall t :: t in p.states ==> Tracked(p, workers, t)
  }

  ghost predicate RootsOk(warming: set<Root>, workers: map<nat, Worker>) {
    && MarkedWarming(warming, workers)
    && OneWarmer(workers)
    && forall root :: root in warming ==> HasWarmer(workers, root)
  }

  ghost predicate LanesOk(c: Config, p: Pool) {
    && |p.accounts| <= c.queueSize && |p.roots| <= c.queueSize && |p.urgents| <= c.workers
    && (forall t :: t in p.accounts ==> t.AccountTask?) && (forall t :: t in p.roots ==> t.RootTask?)
    && (forall t :: t in p.urgents ==> t.AccountTask?)
  }

  ghost predicate Inv(c: Config, s: State) {
    && (!s.pool.started ==> s.workers == map[] && s.pool.states == map[] && s.pool.warming == {})
    && LanesOk(c, s.pool)
    && TasksOk(s.pool, s.workers)
    && RootsOk(s.pool.warming, s.workers)
  }

  // One worker moves on; the others' claims stand.

  lemma RunnerStays(workers: map<nat, Worker>, w: nat, worker: Worker, t: Task)
    requires HasRunner(workers, t)
    requires w in workers && Active(workers[w]) && workers[w].task == t ==> Active(worker) && worker.task == t
    ensures HasRunner(workers[w := worker], t)
  {
    var v :| Runs(workers, v, t);
    assert Runs(workers[w := worker], v, t);
  }

  lemma WarmerStays(workers: map<nat, Worker>, w: nat, worker: Worker, root: Root)
    requires HasWarmer(workers, root)
    requires w in workers && workers[w].Warming? ==> worker == workers[w] || workers[w].root != root
    ensures HasWarmer(workers[w := worker], root)
  {
    var v :| Warms(workers, v, root);
    assert Warms(workers[w := worker], v, root);
  }

  lemma HandStays(workers: map<nat, Worker>, w: nat, worker: Worker, t: Task, want: TaskState)
    requires InHand(workers, t, want)
    requires w in workers ==> workers[w] != Holding(t, want)
    ensures InHand(workers[w := worker], t, want)
  {
    var v :| v in workers && workers[v] == Holding(t, want);
    assert v in workers[w := worker] && workers[w := worker][v] == Holding(t, want);
  }

  /** A worker that warms nothing before or after leaves the roots as they are. */
  lemma RootsStay(warming: set<Root>, workers: map<nat, Worker>, w: nat, worker: Worker)
    requires RootsOk(warming, workers) && w in workers && !workers[w].Warming? && !worker.Warming?
    ensures RootsOk(warming, workers[w := worker])
  {
    forall root | root in warming
      ensures HasWarmer(workers[w := worker], root)
    {
      WarmerStays(workers, w, worker, root);
    }
  }

  /** A step of an active worker on its own task leaves all tasks as they are. */
  lemma TasksStay(p: Pool, workers: map<nat, Worker>, w: nat, worker: Worker)
    requires TasksOk(p, workers) && w in workers && Active(workers[w]) && Active(worker)
             && worker.task == workers[w].task
    ensures TasksOk(p, workers[w := worker])
  {
    forall t | t in p.states
      ensures Tracked(p, workers[w := worker], t)
    {
      TrackedStays(p, workers, w, worker, t);
    }
  }

  lemma TrackedStays(p: Pool, workers: map<nat, Worker>, w: nat, worker: Worker, t: Task)
    requires t in p.states && Tracked(p, workers, t) && w in workers
    requires Active(workers[w]) && workers[w].task == t ==> Active(worker) && worker.task == t
    requires workers[w] != Holding(t, p.states[t])
    ensures Tracked(p, workers[w := worker], t)
  {
    if p.states[t].Running? {
      RunnerStays(workers, w, worker, t);
    } else if t !in LaneOf(p, PendingLane(t, p.states[t])) {
      HandStays(workers, w, worker, t, p.states[t]);
    }
  }

  // Producers.

  lemma EnqueuedTasks(p: Pool, workers: map<nat, Worker>, t: Task, capacity: nat)
    requires TasksOk(p, workers)
    ensures TasksOk(Enqueued(p, t, capacity).1, workers)
  {
    var r := Enqueued(p, t, capacity).1;
    forall u | u in r.states
      ensures Tracked(r, workers, u)
    {
      if u in p.states {
        assert Tracked(p, workers, u);
      }
    }
  }

  lemma PromotedTasks(p: Pool, workers: map<nat, Worker>, t: Task, capacity: nat)
    requires TasksOk(p, workers)
    ensures TasksOk(Promoted(p, t, capacity).1, workers)
  {
    var r := Promoted(p, t, capacity).1;
    forall u | u in r.states
      ensures Tracked(r, workers, u)
    {
      if u in p.states {
        assert Tracked(p, workers, u);
      }
    }
  }

  // Workers.

  lemma ReceivedTasks(p: Pool, workers: map<nat, Worker>, w: nat, lane: Lane)
    requires TasksOk(p, workers) && w in workers && workers[w].Free? && LaneOf(p, lane) != []
    ensures TasksOk(Received(p, lane), workers[w := Holding(LaneOf(p, lane)[0], Want(lane))])
  {
    var first := LaneOf(p, lane)[0];
    var (r, after) := (Received(p, lane), workers[w := Holding(first, Want(lane))]);
    forall t | t in r.states
      ensures Tracked(r, after, t)
    {
      assert Tracked(p, workers, t);
      ReceivedTracked(p, workers, w, lane, t);
    }
  }

  lemma ReceivedTracked(p: Pool, workers: map<nat, Worker>, w: nat, lane: Lane, t: Task)
    requires t in p.states && Tracked(p, workers, t) && w in workers && workers[w].Free? && LaneOf(p, lane) != []
    ensures Tracked(Received(p, lane), workers[w := Holding(LaneOf(p, lane)[0], Want(lane))], t)
  {
    var first := LaneOf(p, lane)[0];
    var after := workers[w := Holding(first, Want(lane))];
    if p.states[t].Running? {
      RunnerStays(workers, w, after[w], t);
    } else {
      var home := PendingLane(t, p.states[t]);
      if InHand(workers, t, p.states[t]) {
        HandStays(workers, w, after[w], t, p.states[t]);
      } else if home == lane && first == t {
        assert after[w] == Holding(t, p.states[t]);
      } else if home == lane {
        assert t in LaneOf(p, lane)[1..];
      }
    }
  }

  lemma BegunTasks(p: Pool, workers: map<nat, Worker>, w: nat)
    requires TasksOk(p, workers) && w in workers && workers[w].Holding?
    ensures var (begun, pool) := Begun(p, workers[w].task, workers[w].want);
            TasksOk(pool, workers[w := if begun then Working(workers[w].task) else Free])
  {
    var t := workers[w].task;
    var (begun, pool) := Begun(p, t, workers[w].want);
    var after := workers[w := if begun then Working(t) else Free];
    forall u | u in pool.states
      ensures Tracked(pool, after, u)
    {
      if begun && u == t {
        assert Runs(after, w, u);
      } else {
        assert Tracked(p, workers, u);
        TrackedStays(p, workers, w, after[w], u);
      }
    }
    if begun {
      BegunRunner(p, workers, w);
    }
  }

  /** A task found pending has no runner yet. */
  lemma BegunRunner(p: Pool, workers: map<nat, Worker>, w: nat)
    requires MarkedRunning(p.states, workers) && OneRunner(workers) && w in workers && workers[w].Holding?
    requires workers[w].task in p.states && !p.states[workers[w].task].Running?
    ensures OneRunner(workers[w := Working(workers[w].task)])
    ensures MarkedRunning(p.states[workers[w].task := Running], workers[w := Working(workers[w].task)])
  {
  }

  lemma ClaimedTasks(p: Pool, workers: map<nat, Worker>, w: nat)
    requires TasksOk(p, workers) && w in workers && workers[w].Resolved?
    ensures var (claimed, pool) := Claimed(p, workers[w].task, workers[w].root);
            TasksOk(pool, workers[w := if claimed then Warming(workers[w].task, workers[w].root)
                                  else Ending(workers[w].task)])
  {
    var (t, root) := (workers[w].task, workers[w].root);
    var (claimed, pool) := Claimed(p, t, root);
    var worker := if claimed then Warming(t, root) else Ending(t);
    var after := workers[w := worker];
    TasksStay(p, workers, w, worker);
    SupersededTasks(p, after, t, root);
  }

  /** Giving up a queued exact root takes nobody's running task away. */
  lemma SupersededTasks(p: Pool, workers: map<nat, Worker>, t: Task, root: Root)
    requires TasksOk(p, workers)
    ensures TasksOk(Claimed(p, t, root).1, workers)
  {
    var (exact, warming) := (RootTask(root), p.warming + {root});
    WarmingTasks(p, workers, warming);
    if t.AccountTask? && exact in p.states && p.states[exact].Queued? {
      PendingGone(p.(warming := warming), workers, exact);
    }
  }

  lemma WarmingTasks(p: Pool, workers: map<nat, Worker>, warming: set<Root>)
    requires TasksOk(p, workers)
    ensures TasksOk(p.(warming := warming), workers)
  {
    forall u | u in p.states
      ensures Tracked(p.(warming := warming), workers, u)
    {
      assert Tracked(p, workers, u);
    }
  }

  lemma PendingGone(p: Pool, workers: map<nat, Worker>, t: Task)
    requires TasksOk(p, workers) && t in p.states && !p.states[t].Running?
    ensures TasksOk(p.(states := p.states - {t}), workers)
  {
    forall u | u in p.states - {t}
      ensures Tracked(p.(states := p.states - {t}), workers, u)
    {
      assert Tracked(p, workers, u);
    }
  }

  lemma ClaimedRoots(p: Pool, workers: map<nat, Worker>, w: nat)
    requires RootsOk(p.warming, workers) && w in workers && workers[w].Resolved?
    ensures var (claimed, pool) := Claimed(p, workers[w].task, workers[w].root);
            RootsOk(pool.warming, workers[w := if claimed then Warming(workers[w].task, workers[w].root)
                                          else Ending(workers[w].task)])
  {
    var (t, root) := (workers[w].task, workers[w].root);
    var (claimed, pool) := Claimed(p, t, root);
    var after := workers[w := if claimed then Warming(t, root) else Ending(t)];
    forall r | r in pool.warming
      ensures HasWarmer(after, r)
    {
      if claimed && r == root {
        assert Warms(after, w, r);
      } else {
        WarmerStays(workers, w, after[w], r);
      }
    }
  }

  lemma ReleasedRoots(warming: set<Root>, workers: map<nat, Worker>, w: nat)
    requires RootsOk(warming, workers) && w in workers && workers[w].Warming?
    ensures RootsOk(warming - {workers[w].root}, workers[w := Ending(workers[w].task)])
  {
    forall r | r in warming - {workers[w].root}
      ensures HasWarmer(workers[w := Ending(workers[w].task)], r)
    {
      WarmerStays(workers, w, Ending(workers[w].task), r);
    }
  }

  lemma CompletedTasks(p: Pool, workers: map<nat, Worker>, w: nat)
    requires TasksOk(p, workers) && w in workers && workers[w].Ending?
    ensures TasksOk(p.(states := p.states - {workers[w].task}), workers[w := Free])
  {
    var t := workers[w].task;
    var (r, after) := (p.(states := p.states - {t}), workers[w := Free]);
    forall u | u in r.states
      ensures Tracked(r, after, u)
    {
      assert Tracked(p, workers, u);
      TrackedStays(p, workers, w, Free, u);
    }
  }

  lemma ExitTasks(p: Pool, workers: map<nat, Worker>, w: nat)
    requires TasksOk(p, workers) && w in workers && workers[w].Free?
    ensures TasksOk(p, workers[w := Stopped])
  {
    forall u | u in p.states
      ensures Tracked(p, workers[w := Stopped], u)
    {
      TrackedStays(p, workers, w, Stopped, u);
    }
  }

  lemma FlagsTasks(p: Pool, workers: map<nat, Worker>, started: bool, closed: bool, cancelled: bool)
    requires TasksOk(p, workers)
    ensures TasksOk(p.(started := started, closed := closed, cancelled := cancelled), workers)
  {
    var r := p.(started := started, closed := closed, cancelled := cancelled);
    forall t | t in r.states
      ensures Tracked(r, workers, t)
    {
      assert Tracked(p, workers, t);
    }
  }

  lemma StepKeepsTasks(c: Config, s: State, step: Step)
    requires Inv(c, s) && Enabled(c, s, step)
    ensures TasksOk(Next(c, s, step).pool, Next(c, s, step).workers)
  {
    match step
    case Start(_) =>
    case EnqueueRoot(root) => EnqueuedTasks(s.pool, s.workers, RootTask(root), c.queueSize);
    case EnqueueAccount(workchain, account) =>
      EnqueuedTasks(s.pool, s.workers, AccountTask(workchain, account), c.queueSize);
    case PrewarmNow(workchain, account) => PromotedTasks(s.pool, s.workers, AccountTask(workchain, account), c.workers);
    case Receive(w, lane) => ReceivedTasks(s.pool, s.workers, w, lane);
    case Begin(w) => BegunTasks(s.pool, s.workers, w);
    case Resolve(w, _, _) => TasksStay(s.pool, s.workers, w, Next(c, s, step).workers[w]);
    case Claim(w) => ClaimedTasks(s.pool, s.workers, w);
    case Release(w) => ReleaseTasks(s.pool, s.workers, w);
    case Complete(w) => CompletedTasks(s.pool, s.workers, w);
    case Exit(w) => ExitTasks(s.pool, s.workers, w);
    case Cancel => FlagsTasks(s.pool, s.workers, s.pool.started, s.pool.closed, true);
    case Close => FlagsTasks(s.pool, s.workers, s.pool.started, true, true);
    case Clear =>
  }

  lemma ReleaseTasks(p: Pool, workers: map<nat, Worker>, w: nat)
    requires TasksOk(p, workers) && w in workers && workers[w].Warming?
    ensures TasksOk(p.(warming := p.warming - {workers[w].root}), workers[w := Ending(workers[w].task)])
  {
    var (r, after) := (p.(warming := p.warming - {workers[w].root}), workers[w := Ending(workers[w].task)]);
    TasksStay(p, workers, w, Ending(workers[w].task));
    forall t | t in r.states
      ensures Tracked(r, after, t)
    {
      assert Tracked(p, after, t);
    }
  }

  lemma StepKeepsRoots(c: Config, s: State, step: Step)
    requires Inv(c, s) && Enabled(c, s, step)
    ensures RootsOk(Next(c, s, step).pool.warming, Next(c, s, step).workers)
  {
    if step.Claim? {
      ClaimedRoots(s.pool, s.workers, step.worker);
    } else if step.Release? {
      ReleasedRoots(s.pool.warming, s.workers, step.worker);
    } else if step.Receive? || step.Begin? || step.Resolve? || step.Complete? || step.Exit? {
      RootsStay(s.pool.warming, s.workers, step.worker, Next(c, s, step).workers[step.worker]);
    }
  }

  lemma StepKeepsLanes(c: Config, s: State, step: Step)
    requires LanesOk(c, s.pool) && Enabled(c, s, step)
    ensures LanesOk(c, Next(c, s, step).pool)
  {
    if step.Receive? {
      var lane := LaneOf(s.pool, step.lane);
      assert forall t :: t in lane[1..] ==> t in lane;
    }
  }

  lemma {:induction false} RunKeepsInv(c: Config, steps: seq<Step>)
    ensures Inv(c, Run(c, steps))
  {
    if steps != [] {
      var (s, step) := (Run(c, steps[..|steps| - 1]), steps[|steps| - 1]);
      RunKeepsInv(c, steps[..|steps| - 1]);
      if Enabled(c, s, step) {
        StepKeepsTasks(c, s, step);
        StepKeepsRoots(c, s, step);
        StepKeepsLanes(c, s, step);
      }
    }
  }

  // Main results.

  /** At every step a task has at most one runner, and one exactly when it is marked running. */
  lemma OneRunnerPerTask(c: Config, steps: seq<Step>, t: Task)
    ensures var s := Run(c, steps);
            && (t in s.pool.states && s.pool.states[t].Running? <==> HasRunner(s.workers, t))
            && (forall v, w :: Runs(s.workers, v, t) && Runs(s.workers, w, t) ==> v == w)
  {
    RunKeepsInv(c, steps);
    var s := Run(c, steps);
    if t in s.pool.states {
      assert Tracked(s.pool, s.workers, t);
    }
  }

  /** At every step a root has at most one warmer, and one exactly when it is in the set. */
  lemma OneWarmerPerRoot(c: Config, steps: seq<Step>, root: Root)
    ensures var s := Run(c, steps);
            && (root in s.pool.warming <==> HasWarmer(s.workers, root))
            && (forall v, w :: Warms(s.workers, v, root) && Warms(s.workers, w, root) ==> v == w)
  {
    RunKeepsInv(c, steps);
  }

  /** Every task marked queued or urgent has a copy in its lane, or in the hand of a worker who will begin it. */
  lemma PendingTasksAreReachable(c: Config, steps: seq<Step>, t: Task)
    ensures var s := Run(c, steps);
            t in s.pool.states && !s.pool.states[t].Running? ==>
              t in LaneOf(s.pool, PendingLane(t, s.pool.states[t])) || InHand(s.workers, t, s.pool.states[t])
  {
    RunKeepsInv(c, steps);
    var s := Run(c, steps);
    if t in s.pool.states {
      assert Tracked(s.pool, s.workers, t);
    }
  }

  /** Once the pool is closed and its workers have stopped, nothing is marked any more, and nothing is accepted. */
  lemma ClosedIsEmpty(c: Config, steps: seq<Step>)
    requires var s := Run(c, steps); s.pool.closed && forall w :: w in s.workers ==> s.workers[w].Stopped?
    ensures var s := Run(c, steps);
            && (forall t :: t in s.pool.states ==> !s.pool.states[t].Running?)
            && s.pool.warming == {}
            && forall t, n :: !Enqueued(s.pool, t, n).0 && !Promoted(s.pool, t, n).0
  {
    RunKeepsInv(c, steps);
    var s := Run(c, steps);
    forall t | t in s.pool.states
      ensures !s.pool.states[t].Running?
    {
      assert Tracked(s.pool, s.workers, t);
    }
    forall root
      ensures root !in s.pool.warming
    {
      assert root in s.pool.warming ==> HasWarmer(s.workers, root);
    }
  }

  // What each operation does, exactly.

  predicate Open(p: Pool) {
    p.started && !p.closed && !p.cancelled
  }

  /** An account is queued last in its lane exactly when the pool is open, the account unknown and the lane not full. */
  lemma AccountIsQueued(c: Config, s: State, workchain: int, account: nat)
    ensures var (t, r) := (AccountTask(workchain, account), Next(c, s, EnqueueAccount(workchain, account)));
            if Open(s.pool) && t !in s.pool.states && |s.pool.accounts| < c.queueSize
            then r == s.(pool := s.pool.(accounts := s.pool.accounts + [t], states := s.pool.states[t := Queued]))
            else r == s
  {
  }

  /** The like for an exact root, which must not be being warmed either. */
  lemma RootIsQueued(c: Config, s: State, root: Root)
    ensures var (t, r) := (RootTask(root), Next(c, s, EnqueueRoot(root)));
            if Open(s.pool) && root !in s.pool.warming && t !in s.pool.states && |s.pool.roots| < c.queueSize
            then r == s.(pool := s.pool.(roots := s.pool.roots + [t], states := s.pool.states[t := Queued]))
            else r == s
  {
  }

  /** A wanted account becomes urgent exactly when the lane has room and the account is new or merely queued. */
  lemma AccountIsPromoted(c: Config, s: State, workchain: int, account: nat)
    ensures var (t, r) := (AccountTask(workchain, account), Next(c, s, PrewarmNow(workchain, account)));
            if Open(s.pool) && (t !in s.pool.states || s.pool.states[t].Queued?) && |s.pool.urgents| < c.workers
            then r == s.(pool := s.pool.(urgents := s.pool.urgents + [t], states := s.pool.states[t := Urgent]))
            else r == s
  {
  }

  /**
   A worker begins the copy it holds exactly when it still waits in that copy's lane and the pool is not
   cancelled; a waiting task of a cancelled pool is given up, a stale copy passed over.
  */
  lemma HeldTaskBegins(c: Config, s: State, w: nat)
    requires w in s.workers && s.workers[w].Holding?
    ensures var (t, r) := (s.workers[w].task, Next(c, s, Begin(w)));
            var waits := t in s.pool.states && s.pool.states[t] == s.workers[w].want;
            && r.workers == s.workers[w := if waits && !s.pool.cancelled then Working(t) else Free]
            && r.pool.states == (if !waits then s.pool.states
                                 else if s.pool.cancelled then s.pool.states - {t} else s.pool.states[t := Running])
  {
  }

  /**
   A worker warms the root it has come to exactly when nobody else does and, if an account led to it, no task for
   that very root has begun; one that only waits is given up for it.
  */
  lemma ResolvedRootIsWarmed(c: Config, s: State, w: nat)
    requires w in s.workers && s.workers[w].Resolved?
    ensures var (t, root, r) := (s.workers[w].task, s.workers[w].root, Next(c, s, Claim(w)));
            var exact := RootTask(root);
            var begun := t.AccountTask? && exact in s.pool.states && !s.pool.states[exact].Queued?;
            if root !in s.pool.warming && !begun
            then && r.workers[w] == Warming(t, root) && r.pool.warming == s.pool.warming + {root}
                 && r.pool.states == (if t.AccountTask? then s.pool.states - {exact} else s.pool.states)
            else r.workers[w] == Ending(t) && r.pool == s.pool
  {
    var exact := RootTask(s.workers[w].root);
    assert exact !in s.pool.states ==> s.pool.states - {exact} == s.pool.states;
  }

  /** Two tasks in one lane are received in the order they were queued. */
  lemma FirstIsReceived(c: Config, s: State, w: nat, lane: Lane)
    requires w in s.workers && s.workers[w].Free? && LaneOf(s.pool, lane) != []
    ensures var r := Next(c, s, Receive(w, lane));
            && LaneOf(s.pool, lane) == [r.workers[w].task] + LaneOf(r.pool, lane)
            && r.workers[w] == Holding(r.workers[w].task, if lane.UrgentLane? then Urgent else Queued)
  {
  }

  /** An exact root is its own; an account's root is looked up, and a failed lookup ends it. */
  lemma TaskResolves(c: Config, s: State, w: nat, root: Root, fails: bool)
    requires w in s.workers && s.workers[w].Working?
    ensures var (t, r) := (s.workers[w].task, Next(c, s, Resolve(w, root, fails)));
            && r.pool == s.pool
            && r.workers[w] == match t case RootTask(exact) => Resolved(t, exact)
                               case AccountTask(_, _) => if fails then Ending(t) else Resolved(t, root)
  {
  }

  /** Cancelling and closing let nothing more in, and clearing a closed pool whose workers have stopped empties it. */
  lemma ShutsExactly(c: Config, s: State)
    ensures s.pool.started ==> !Open(Next(c, s, Cancel).pool)
    ensures !Open(Next(c, s, Close).pool) && Next(c, s, Close).pool.closed
    ensures s.pool.closed && (forall w :: w in s.workers ==> s.workers[w].Stopped?) ==>
              var p := Next(c, s, Clear).pool; p.states == map[] && p.warming == {}
  {
  }
}
