/**
 * The memoising single-flight shard state resolver (service/shard_state_resolver.go).
 *
 * Plain is the recursive definition of a block's state.  The machine below runs any
 * number of callers at once, each with its own call stack, over the shared cache and
 * task table.  Main results: a successful answer is the plain one, a block is being
 * resolved by at most one caller, waiting never forms a cycle, some caller can always
 * go on, and every caller's own steps run down a rank.
 */
module ShardResolver {
  import opened Common

  datatype Block = Block(workchain: int, shard: nat, seqno: nat, hash: nat)

  /** What the block loader answers: the block's own id and its previous references. */
  datatype Downloaded = Downloaded(id: Block, prevRefs: seq<Block>)

  /**
   * The world a resolver runs in: the states known at the start, the blocks that can be
   * loaded, and what applying a block over its predecessors' states gives (None is an error).
   */
  datatype Env<!S> = Env(base: map<Block, S>, load: map<Block, Downloaded>, apply: (Block, seq<S>) -> Option<S>)

  predicate ValidPrev(block: Block, prev: Block) {
    prev.workchain == block.workchain && prev.seqno < block.seqno
  }

  predicate Usable(load: map<Block, Downloaded>, b: Block) {
    b in load && load[b].id == b && 1 <= |load[b].prevRefs| <= 2
  }

  // The plain recursive definition.

  ghost function Plain<S>(env: Env<S>, b: Block): (r: Option<S>)
    decreases b.seqno + 1, 1
  {
    if b in env.base then Some(env.base[b]) else Computed(env, b)
  }

  /** The state of a block that has to be applied. */
  ghost function Computed<S>(env: Env<S>, b: Block): (r: Option<S>)
    decreases b.seqno + 1, 0
  {
    if !Usable(env.load, b) then None
    else
      var refs := env.load[b].prevRefs;
      if exists r :: r in refs && !ValidPrev(b, r) then None
      else
        var previous := PlainAll(env, b.seqno, refs);
        if previous.None? then None else env.apply(b, previous.value)
  }

  ghost function PlainAll<S>(env: Env<S>, bound: nat, refs: seq<Block>): (r: Option<seq<S>>)
    requires forall r :: r in refs ==> r.seqno < bound
    decreases bound, |refs| + 2
  {
    if refs == [] then Some([])
    else
      var last := refs[|refs| - 1];
      var (init, state) := (PlainAll(env, bound, refs[..|refs| - 1]), Plain(env, last));
      if init.None? || state.None? then None else Some(init.value + [state.value])
  }

  /**
   A block that is not known has a state only if it was loaded under its own id, names one or two predecessors, and
   each of them is an earlier block of its workchain that has a state.
  */
  lemma PlainNeeds<S>(env: Env<S>, b: Block, prev: Block)
    requires b !in env.base && Plain(env, b).Some?
    ensures b in env.load && env.load[b].id == b && (|env.load[b].prevRefs| == 1 || |env.load[b].prevRefs| == 2)
    ensures prev in env.load[b].prevRefs ==>
              prev.workchain == b.workchain && prev.seqno < b.seqno && Plain(env, prev).Some?
  {
    var refs := env.load[b].prevRefs;
    if prev in refs {
      assert !exists r :: r in refs && !ValidPrev(b, r);
      PartsArePlain(env, b.seqno, refs, prev);
    }
  }

  lemma {:induction false} PartsArePlain<S>(env: Env<S>, bound: nat, refs: seq<Block>, prev: Block)
    requires (forall r :: r in refs ==> r.seqno < bound) && PlainAll(env, bound, refs).Some? && prev in refs
    ensures Plain(env, prev).Some?
  {
    var n := |refs| - 1;
    if prev != refs[n] {
      assert refs == refs[..n] + [refs[n]];
      PartsArePlain(env, bound, refs[..n], prev);
    }
  }

  /** Over one predecessor its state is what applying the block to that one's state gives. */
  lemma PlainOverOne<S>(env: Env<S>, b: Block, prev: Block)
    requires b !in env.base && b in env.load && env.load[b] == Downloaded(b, [prev])
    requires prev.workchain == b.workchain && prev.seqno < b.seqno
    ensures Plain(env, b) == if Plain(env, prev).Some? then env.apply(b, [Plain(env, prev).value]) else None
  {
    var refs := [prev];
    assert forall r :: r in refs ==> ValidPrev(b, r);
    if Plain(env, prev).Some? {
      GotIsPlain(env, b, refs, [Plain(env, prev).value]);
    } else {
      MissingPrev(env, b.seqno, refs, 0);
    }
  }

  /** After a merge, to the two predecessors' states in the order the block names them. */
  lemma PlainOverTwo<S>(env: Env<S>, b: Block, left: Block, right: Block)
    requires b !in env.base && b in env.load && env.load[b] == Downloaded(b, [left, right])
    requires left.workchain == b.workchain && left.seqno < b.seqno
    requires right.workchain == b.workchain && right.seqno < b.seqno
    ensures Plain(env, b) == if Plain(env, left).Some? && Plain(env, right).Some?
            then env.apply(b, [Plain(env, left).value, Plain(env, right).value]) else None
  {
    var refs := [left, right];
    assert forall r :: r in refs ==> ValidPrev(b, r);
    if Plain(env, left).Some? && Plain(env, right).Some? {
      GotIsPlain(env, b, refs, [Plain(env, left).value, Plain(env, right).value]);
    } else {
      MissingPrev(env, b.seqno, refs, if Plain(env, left).None? then 0 else 1);
    }
  }

  ghost predicate True<S>(env: Env<S>, b: Block, s: S) {
    Plain(env, b) == Some(s)
  }

  ghost predicate AllTrue<S>(env: Env<S>, states: map<Block, S>) {
    forall b :: b in states ==> True(env, b, states[b])
  }

  /** Applying a known block again would not give another state. */
  ghost predicate Replays<S>(env: Env<S>, b: Block) {
    b in env.base ==> Computed(env, b) == None || Computed(env, b) == Some(env.base[b])
  }

  // Callers.

  /** One owned resolution: its block, its task, the previous references and the states got so far. */
  datatype Frame<S> = Frame(block: Block, task: nat, refs: seq<Block>, got: seq<S>)

  /** Where a caller stands.  Between Current and Finish it works on its innermost frame. */
  datatype Pc<S> =
    | Idle
    | Enter(block: Block)
    | Wait(block: Block, task: nat)
    | Give(block: Block, result: Option<S>)
    | AtCurrent
    | AtStore
    | AtLoad
    | AtPrev
    | AtApply
    | Finish(outcome: Option<S>)

  datatype Caller<S> = Caller(stack: seq<Frame<S>>, pc: Pc<S>)

  /** A task in flight.  The owner and its depth on that caller's stack are bookkeeping. */
  datatype Task = Task(id: nat, owner: nat, depth: nat)

  /** A shard's head: its block, and its state when the cell is loaded. */
  datatype Head<S> = Head(block: Block, cell: Option<S>)

  datatype State<S> = State(
    heads: map<(int, nat), Head<S>>,
    stored: map<Block, S>,
    cache: map<Block, S>,
    tasks: map<Block, Task>,
    done: map<(Block, nat), Option<S>>,
    nextTask: nat,
    callers: map<nat, Caller<S>>)

  datatype Step<S> =
    | Call(caller: nat, block: Block)
    | LookUp(caller: nat)
    | WaitDone(caller: nat)
    | Cancel(caller: nat)
    | ReadCurrent(caller: nat, fails: bool)
    | ReadStore(caller: nat, fails: bool)
    | LoadBlock(caller: nat, fails: bool)
    | NextPrev(caller: nat)
    | Apply(caller: nat, fails: bool, saves: bool)
    | Complete(caller: nat, kept: set<Block>)
    | Deliver(caller: nat)
    | Know(heads: map<(int, nat), Head<S>>, stored: map<Block, S>)

  function Top<S>(c: Caller<S>): (f: Frame<S>)
    requires c.stack != []
  {
    c.stack[|c.stack| - 1]
  }

  function Below<S>(c: Caller<S>): (r: seq<Frame<S>>)
    requires c.stack != []
  {
    c.stack[..|c.stack| - 1]
  }

  // Cache eviction (evictCacheLocked).

  const CACHE_LIMIT: nat := 2048
  const CACHE_RETAIN: nat := CACHE_LIMIT * 7 / 8

  /** The keys an insertion may leave: all of them, or beyond the limit the ones with the highest seqnos. */
  ghost predicate Kept<S>(cache: map<Block, S>, kept: set<Block>) {
    if |cache| <= CACHE_LIMIT then kept == cache.Keys
    else
      && kept <= cache.Keys
      && |kept| == CACHE_RETAIN
      && forall k, e :: k in kept && e in cache.Keys - kept ==> e.seqno <= k.seqno
  }

  function Restrict<S>(cache: map<Block, S>, kept: set<Block>): (r: map<Block, S>) {
    map b | b in cache && b in kept :: cache[b]
  }

  // The steps.

  ghost predicate Enabled<S>(env: Env<S>, s: State<S>, step: Step<S>) {
    match step
    case Call(c, _) => c in s.callers && s.callers[c].pc.Idle? && s.callers[c].stack == []
    case LookUp(c) => c in s.callers && s.callers[c].pc.Enter?
    case WaitDone(c) => c in s.callers && s.callers[c].pc.Wait?
        && (s.callers[c].pc.block, s.callers[c].pc.task) in s.done
    case Cancel(c) => c in s.callers && s.callers[c].pc.Wait?
    case ReadCurrent(c, _) => c in s.callers && s.callers[c].pc.AtCurrent? && s.callers[c].stack != []
    case ReadStore(c, _) => c in s.callers && s.callers[c].pc.AtStore? && s.callers[c].stack != []
    case LoadBlock(c, _) => c in s.callers && s.callers[c].pc.AtLoad? && s.callers[c].stack != []
    case NextPrev(c) => c in s.callers && s.callers[c].pc.AtPrev? && s.callers[c].stack != []
        && |Top(s.callers[c]).got| <= |Top(s.callers[c]).refs|
    case Apply(c, _, _) => c in s.callers && s.callers[c].pc.AtApply? && s.callers[c].stack != []
    case Complete(c, kept) =>
      && c in s.callers && s.callers[c].pc.Finish? && s.callers[c].stack != []
      && (s.callers[c].pc.outcome.Some? ==>
          Kept(s.cache[Top(s.callers[c]).block := s.callers[c].pc.outcome.value], kept))
    case Deliver(c) => c in s.callers && s.callers[c].pc.Give?
    case Know(heads, stored) => KnownTrue(env, heads, stored)
  }

  /**
   What the outside world may put into the heads and the store: true states, keeping those a replay would not give.
  */
  ghost predicate KnownTrue<S>(env: Env<S>, heads: map<(int, nat), Head<S>>, stored: map<Block, S>) {
    && AllTrue(env, stored)
    && (forall k :: k in heads && heads[k].cell.Some? ==> True(env, heads[k].block, heads[k].cell.value))
    && (forall b :: b in env.base && !Replays(env, b) ==> b in stored)
  }

  /** currentExactState: the head's cell, or the store's copy when the cell is not loaded. */
  function CurrentState<S>(heads: map<(int, nat), Head<S>>, stored: map<Block, S>, b: Block): (r: Option<S>) {
    var key := (b.workchain, b.shard);
    if key !in heads || heads[key].block != b then None
    else if heads[key].cell.Some? then heads[key].cell
    else if b in stored then Some(stored[b])
    else None
  }

  function Go<S>(c: Caller<S>, pc: Pc<S>): (r: Caller<S>) {
    Caller(c.stack, pc)
  }

  function LookUpNext<S>(s: State<S>, caller: Caller<S>): (r: Caller<S>)
    requires caller.pc.Enter?
  {
    var b := caller.pc.block;
    if b in s.cache then Go(caller, Give(b, Some(s.cache[b])))
    else if b in s.tasks then Go(caller, Wait(b, s.tasks[b].id))
    else Caller(caller.stack + [Frame(b, s.nextTask, [], [])], AtCurrent)
  }

  function LoadNext<S>(env: Env<S>, caller: Caller<S>, fails: bool): (r: Caller<S>)
    requires caller.stack != []
  {
    var f := Top(caller);
    if fails || !Usable(env.load, f.block) then Go(caller, Finish(None))
    else Caller(Below(caller) + [f.(refs := env.load[f.block].prevRefs)], AtPrev)
  }

  function PrevNext<S>(caller: Caller<S>): (r: Caller<S>)
    requires caller.stack != [] && |Top(caller).got| <= |Top(caller).refs|
  {
    var f := Top(caller);
    if |f.got| == |f.refs| then Go(caller, AtApply)
    else if ValidPrev(f.block, f.refs[|f.got|]) then Go(caller, Enter(f.refs[|f.got|]))
    else Go(caller, Finish(None))
  }

  function Applied<S>(env: Env<S>, f: Frame<S>, fails: bool): (r: Option<S>) {
    if fails then None else env.apply(f.block, f.got)
  }

  function CompleteNext<S>(caller: Caller<S>): (r: Caller<S>)
    requires caller.pc.Finish? && caller.stack != []
  {
    Caller(Below(caller), Give(Top(caller).block, caller.pc.outcome))
  }

  /** A result reaches its caller: the frame that asked for it, or the outside. */
  function DeliverNext<S>(caller: Caller<S>): (r: Caller<S>)
    requires caller.pc.Give?
  {
    if caller.stack == [] then Caller([], Idle)
    else if caller.pc.result.None? then Go(caller, Finish(None))
    else Caller(Below(caller) + [Top(caller).(got := Top(caller).got + [caller.pc.result.value])], AtPrev)
  }

  /** The stepping caller afterwards. */
  ghost function Moved<S>(env: Env<S>, s: State<S>, step: Step<S>): (r: Caller<S>)
    requires Enabled(env, s, step) && !step.Know?
  {
    var caller := s.callers[step.caller];
    match step
    case Call(_, b) => Go(caller, Enter(b))
    case LookUp(_) => LookUpNext(s, caller)
    case WaitDone(_) => Go(caller, Give(caller.pc.block, s.done[(caller.pc.block, caller.pc.task)]))
    case Cancel(_) => Go(caller, Give(caller.pc.block, None))
    case ReadCurrent(_, fails) =>
      var found := CurrentState(s.heads, s.stored, Top(caller).block);
      Go(caller, if fails then Finish(None) else if found.Some? then Finish(found) else AtStore)
    case ReadStore(_, fails) =>
      var b := Top(caller).block;
      Go(caller, if fails then Finish(None) else if b in s.stored then Finish(Some(s.stored[b])) else AtLoad)
    case LoadBlock(_, fails) => LoadNext(env, caller, fails)
    case NextPrev(_) => PrevNext(caller)
    case Apply(_, fails, _) => Go(caller, Finish(Applied(env, Top(caller), fails)))
    case Complete(_, _) => CompleteNext(caller)
    case Deliver(_) => DeliverNext(caller)
  }

  /** LookUp opens a task when the block is neither cached nor in flight; Complete closes its own. */
  ghost predicate Opens<S>(s: State<S>, step: Step<S>) {
    && step.LookUp? && step.caller in s.callers && s.callers[step.caller].pc.Enter?
    && s.callers[step.caller].pc.block !in s.cache && s.callers[step.caller].pc.block !in s.tasks
  }

  ghost function TasksAfter<S>(env: Env<S>, s: State<S>, step: Step<S>): (r: map<Block, Task>)
    requires Enabled(env, s, step) && !step.Know?
  {
    var caller := s.callers[step.caller];
    if Opens(s, step) then s.tasks[caller.pc.block := Task(s.nextTask, step.caller, |caller.stack|)]
    else if step.Complete? then s.tasks - {Top(caller).block}
    else s.tasks
  }

  ghost function CacheAfter<S>(env: Env<S>, s: State<S>, step: Step<S>): (r: map<Block, S>)
    requires Enabled(env, s, step) && !step.Know?
  {
    var caller := s.callers[step.caller];
    if step.Complete? && caller.pc.outcome.Some?
      then Restrict(s.cache[Top(caller).block := caller.pc.outcome.value], step.kept)
    else s.cache
  }

  ghost function DoneAfter<S>(env: Env<S>, s: State<S>, step: Step<S>): (r: map<(Block, nat), Option<S>>)
    requires Enabled(env, s, step) && !step.Know?
  {
    var caller := s.callers[step.caller];
    if step.Complete? then s.done[(Top(caller).block, Top(caller).task) := caller.pc.outcome] else s.done
  }

  ghost function StoredAfter<S>(env: Env<S>, s: State<S>, step: Step<S>): (r: map<Block, S>)
    requires Enabled(env, s, step) && !step.Know?
  {
    if step.Apply? && step.saves && Applied(env, Top(s.callers[step.caller]), step.fails).Some?
    then s.stored[Top(s.callers[step.caller]).block := Applied(env, Top(s.callers[step.caller]), step.fails).value]
    else s.stored
  }

  ghost function Next<S>(env: Env<S>, s: State<S>, step: Step<S>): (r: State<S>) {
    if !Enabled(env, s, step) then s
    else if step.Know? then s.(heads := step.heads, stored := step.stored)
    else s.(
      callers := s.callers[step.caller := Moved(env, s, step)],
      tasks := TasksAfter(env, s, step),
      cache := CacheAfter(env, s, step),
      done := DoneAfter(env, s, step),
      stored := StoredAfter(env, s, step),
      nextTask := s.nextTask + 1)
  }

  ghost predicate Initial<S>(env: Env<S>, s: State<S>) {
    && KnownTrue(env, s.heads, s.stored)
    && AllTrue(env, s.cache)
    && s.tasks == map[] && s.done == map[]
    && forall c :: c in s.callers ==> s.callers[c] == Caller([], Idle)
  }

  ghost function Run<S>(env: Env<S>, start: State<S>, steps: seq<Step<S>>): (s: State<S>) {
    if steps == [] then start else Next(env, Run(env, start, steps[..|steps| - 1]), steps[|steps| - 1])
  }

  // What every step keeps: first, per caller.

  ghost predicate FrameOk<S>(env: Env<S>, f: Frame<S>) {
    && |f.got| <= |f.refs|
    && (f.refs != [] ==> Usable(env.load, f.block) && f.refs == env.load[f.block].prevRefs)
    && forall i :: 0 <= i < |f.got| ==> ValidPrev(f.block, f.refs[i]) && True(env, f.refs[i], f.got[i])
  }

  /** A frame waiting for the reference after the ones it has. */
  ghost predicate Asking<S>(env: Env<S>, f: Frame<S>, b: Block) {
    && |f.got| < |f.refs|
    && f.refs[|f.got|] == b
    && ValidPrev(f.block, b)
    && Untold(env, f.block)
  }

  /** A frame that has come past the store: applying is the way to its state. */
  ghost predicate Untold<S>(env: Env<S>, b: Block) {
    b !in env.base || Replays(env, b)
  }

  ghost predicate StackOk<S>(env: Env<S>, stack: seq<Frame<S>>) {
    && (forall i :: 0 <= i < |stack| ==> FrameOk(env, stack[i]))
    && (forall i :: 0 <= i < |stack| - 1 ==> Asking(env, stack[i], stack[i + 1].block))
  }

  ghost predicate PcOk<S>(env: Env<S>, c: Caller<S>) {
    match c.pc
    case Idle => c.stack == []
    case Enter(b) => c.stack != [] ==> Asking(env, Top(c), b)
    case Wait(b, _) => c.stack != [] ==> Asking(env, Top(c), b)
    case Give(b, r) => (c.stack != [] ==> Asking(env, Top(c), b)) && (r.Some? ==> True(env, b, r.value))
    case AtCurrent => c.stack != [] && Top(c).refs == []
    case AtStore => c.stack != [] && Top(c).refs == []
    case AtLoad => c.stack != [] && Top(c).refs == [] && Untold(env, Top(c).block)
    case AtPrev => c.stack != [] && Top(c).refs != [] && Untold(env, Top(c).block)
    case AtApply => c.stack != [] && Top(c).refs != [] && |Top(c).got| == |Top(c).refs| && Untold(env, Top(c).block)
    case Finish(r) => c.stack != [] && (r.Some? ==> True(env, Top(c).block, r.value))
  }

  ghost predicate CallerOk<S>(env: Env<S>, c: Caller<S>) {
    StackOk(env, c.stack) && PcOk(env, c)
  }

  // Second, the shared tables.

  ghost predicate SharedOk<S>(env: Env<S>, heads: map<(int, nat), Head<S>>, stored: map<Block, S>, cache: map<Block, S>,
                              done: map<(Block, nat), Option<S>>)
  {
    && KnownTrue(env, heads, stored)
    && AllTrue(env, cache)
    && forall k :: k in done && done[k].Some? ==> True(env, k.0, done[k].value)
  }

  /** Every frame is the one its block's task names, and the other way round. */
  ghost predicate TasksOk<S>(tasks: map<Block, Task>, callers: map<nat, Caller<S>>) {
    && (forall c, i :: c in callers && 0 <= i < |callers[c].stack| ==> Names(tasks, c, i, callers[c].stack[i]))
    && (forall b :: b in tasks ==> Owned(tasks[b], callers, b))
  }

  ghost predicate Owned<S>(task: Task, callers: map<nat, Caller<S>>, b: Block) {
    && task.owner in callers
    && task.depth < |callers[task.owner].stack|
    && callers[task.owner].stack[task.depth].block == b
  }

  ghost predicate Names<S>(tasks: map<Block, Task>, c: nat, i: nat, f: Frame<S>) {
    f.block in tasks && tasks[f.block] == Task(f.task, c, i)
  }

  /** A waiter's task is either done or still owned. */
  ghost predicate WaitOk<S>(tasks: map<Block, Task>, done: map<(Block, nat), Option<S>>, pc: Pc<S>) {
    pc.Wait? ==> (pc.block, pc.task) in done || (pc.block in tasks && tasks[pc.block].id == pc.task)
  }

  ghost predicate Inv<S>(env: Env<S>, s: State<S>) {
    && SharedOk(env, s.heads, s.stored, s.cache, s.done)
    && TasksOk(s.tasks, s.callers)
    && CallersOk(env, s.tasks, s.done, s.callers)
  }

  ghost predicate CallersOk<S>(env: Env<S>, tasks: map<Block, Task>, done: map<(Block, nat), Option<S>>,
                               callers: map<nat, Caller<S>>)
  {
    forall c :: c in callers ==> CallerOk(env, callers[c]) && WaitOk(tasks, done, callers[c].pc)
  }

  lemma InitialInv<S>(env: Env<S>, s: State<S>)
    requires Initial(env, s)
    ensures Inv(env, s)
  {
  }

  predicate SameTasks<S>(a: seq<Frame<S>>, b: seq<Frame<S>>) {
    |a| == |b| && forall i :: 0 <= i < |a| ==> a[i].block == b[i].block && a[i].task == b[i].task
  }

  lemma SameTasksOk<S>(tasks: map<Block, Task>, callers: map<nat, Caller<S>>, c: nat, caller: Caller<S>)
    requires TasksOk(tasks, callers) && c in callers && SameTasks(callers[c].stack, caller.stack)
    ensures TasksOk(tasks, callers[c := caller])
  {
    var callers' := callers[c := caller];
    forall d, i | d in callers' && 0 <= i < |callers'[d].stack|
      ensures Names(tasks, d, i, callers'[d].stack[i])
    {
      assert Names(tasks, d, i, callers[d].stack[i]);
    }
    forall b | b in tasks
      ensures Owned(tasks[b], callers', b)
    {
      assert Owned(tasks[b], callers, b);
    }
  }

  lemma ExtendStack<S>(env: Env<S>, stack: seq<Frame<S>>, f: Frame<S>)
    requires StackOk(env, stack) && FrameOk(env, f)
    requires stack != [] ==> Asking(env, stack[|stack| - 1], f.block)
    ensures StackOk(env, stack + [f])
  {
  }

  /** The innermost frame may change as long as its block stays. */
  lemma ReplaceTop<S>(env: Env<S>, c: Caller<S>, f: Frame<S>)
    requires c.stack != [] && StackOk(env, c.stack)
    requires FrameOk(env, f) && f.block == Top(c).block && f.task == Top(c).task
    ensures StackOk(env, Below(c) + [f]) && SameTasks(c.stack, Below(c) + [f])
  {
    var below := Below(c);
    assert StackOk(env, below);
    if below != [] {
      assert Asking(env, c.stack[|below| - 1], c.stack[|below| - 1 + 1].block);
    }
    ExtendStack(env, below, f);
  }

  lemma LookUpCaller<S>(env: Env<S>, s: State<S>, c: Caller<S>)
    requires CallerOk(env, c) && c.pc.Enter? && AllTrue(env, s.cache)
    ensures CallerOk(env, LookUpNext(s, c))
  {
    ExtendStack(env, c.stack, Frame(c.pc.block, s.nextTask, [], []));
  }

  lemma OwnTasks<S>(tasks: map<Block, Task>, callers: map<nat, Caller<S>>, c: nat, f: Frame<S>, caller: Caller<S>)
    requires TasksOk(tasks, callers) && c in callers && caller.stack == callers[c].stack + [f] && f.block !in tasks
    ensures TasksOk(tasks[f.block := Task(f.task, c, |callers[c].stack|)], callers[c := caller])
  {
    var (tasks', callers') := (tasks[f.block := Task(f.task, c, |callers[c].stack|)], callers[c := caller]);
    forall d, i | d in callers' && 0 <= i < |callers'[d].stack|
      ensures Names(tasks', d, i, callers'[d].stack[i])
    {
      if !(d == c && i == |callers[c].stack|) {
        assert Names(tasks, d, i, callers[d].stack[i]);
      }
    }
    forall b | b in tasks'
      ensures Owned(tasks'[b], callers', b)
    {
      if b != f.block {
        assert Owned(tasks[b], callers, b);
      }
    }
  }

  lemma CompleteCaller<S>(env: Env<S>, c: Caller<S>)
    requires CallerOk(env, c) && c.pc.Finish?
    ensures CallerOk(env, CompleteNext(c))
  {
    var below := Below(c);
    assert StackOk(env, below);
    if below != [] {
      assert Asking(env, c.stack[|below| - 1], c.stack[|below| - 1 + 1].block);
    }
  }

  lemma CompleteTasks<S>(tasks: map<Block, Task>, callers: map<nat, Caller<S>>, c: nat, caller: Caller<S>)
    requires TasksOk(tasks, callers) && c in callers && callers[c].stack != [] && caller.stack == Below(callers[c])
    ensures TasksOk(tasks - {Top(callers[c]).block}, callers[c := caller])
  {
    var f := Top(callers[c]);
    var last := |callers[c].stack| - 1;
    assert Names(tasks, c, last, f);
    var (tasks', callers') := (tasks - {f.block}, callers[c := caller]);
    forall d, i | d in callers' && 0 <= i < |callers'[d].stack|
      ensures Names(tasks', d, i, callers'[d].stack[i])
    {
      assert Names(tasks, d, i, callers[d].stack[i]);
    }
    forall b | b in tasks'
      ensures Owned(tasks'[b], callers', b)
    {
      assert Owned(tasks[b], callers, b);
    }
  }

  /** Applying over the predecessors' plain states gives the plain state. */
  lemma ApplyIsPlain<S>(env: Env<S>, f: Frame<S>)
    requires FrameOk(env, f) && f.refs != [] && |f.got| == |f.refs| && Untold(env, f.block)
    ensures Computed(env, f.block) == env.apply(f.block, f.got)
    ensures env.apply(f.block, f.got).Some? ==> True(env, f.block, env.apply(f.block, f.got).value)
  {
    forall r | r in f.refs
      ensures ValidPrev(f.block, r)
    {
    }
    GotIsPlain(env, f.block, f.refs, f.got);
    assert Computed(env, f.block) == env.apply(f.block, f.got);
  }

  lemma {:induction false} GotIsPlain<S>(env: Env<S>, b: Block, refs: seq<Block>, got: seq<S>)
    requires |got| == |refs|
    requires forall i :: 0 <= i < |refs| ==> ValidPrev(b, refs[i]) && True(env, refs[i], got[i])
    ensures (forall r :: r in refs ==> r.seqno < b.seqno) && PlainAll(env, b.seqno, refs) == Some(got)
  {
    if refs != [] {
      var n := |refs| - 1;
      GotIsPlain(env, b, refs[..n], got[..n]);
      assert True(env, refs[n], got[n]);
      assert got == got[..n] + [got[n]];
    }
  }

  lemma ApplyCaller<S>(env: Env<S>, c: Caller<S>, fails: bool)
    requires CallerOk(env, c) && c.pc.AtApply?
    ensures CallerOk(env, Go(c, Finish(Applied(env, Top(c), fails))))
  {
    assert FrameOk(env, Top(c));
    ApplyIsPlain(env, Top(c));
  }

  /** A read that hits gives a plain state; one that misses the store leaves only applying. */
  lemma ReadCaller<S>(env: Env<S>, s: State<S>, step: Step<S>)
    requires KnownTrue(env, s.heads, s.stored) && Enabled(env, s, step) && (step.ReadCurrent? || step.ReadStore?)
    requires CallerOk(env, s.callers[step.caller])
    ensures CallerOk(env, Moved(env, s, step))
  {
    var b := Top(s.callers[step.caller]).block;
    assert Moved(env, s, step).stack == s.callers[step.caller].stack;
    if step.ReadCurrent? {
      assert CurrentState(s.heads, s.stored, b).Some? ==> True(env, b, CurrentState(s.heads, s.stored, b).value);
    } else {
      assert b in s.stored || Untold(env, b);
    }
  }

  lemma LoadCaller<S>(env: Env<S>, c: Caller<S>, fails: bool)
    requires CallerOk(env, c) && c.pc.AtLoad?
    ensures CallerOk(env, LoadNext(env, c, fails)) && SameTasks(c.stack, LoadNext(env, c, fails).stack)
  {
    var f := Top(c);
    assert FrameOk(env, f);
    if Usable(env.load, f.block) {
      ReplaceTop(env, c, f.(refs := env.load[f.block].prevRefs));
    }
  }

  lemma PrevCaller<S>(env: Env<S>, c: Caller<S>)
    requires CallerOk(env, c) && c.pc.AtPrev?
    ensures CallerOk(env, PrevNext(c)) && PrevNext(c).stack == c.stack
  {
  }

  lemma DeliverCaller<S>(env: Env<S>, c: Caller<S>)
    requires CallerOk(env, c) && c.pc.Give?
    ensures CallerOk(env, DeliverNext(c)) && SameTasks(c.stack, DeliverNext(c).stack)
  {
    if c.stack != [] && c.pc.result.Some? {
      var f := Top(c);
      assert FrameOk(env, f);
      ReplaceTop(env, c, f.(got := f.got + [c.pc.result.value]));
    }
  }

  lemma EndWaitCaller<S>(env: Env<S>, s: State<S>, step: Step<S>)
    requires SharedOk(env, s.heads, s.stored, s.cache, s.done) && Enabled(env, s, step)
    requires step.Call? || step.WaitDone? || step.Cancel?
    requires CallerOk(env, s.callers[step.caller])
    ensures CallerOk(env, Moved(env, s, step))
  {
    assert Moved(env, s, step).stack == s.callers[step.caller].stack;
  }

  lemma MovedOk<S>(env: Env<S>, s: State<S>, step: Step<S>)
    requires SharedOk(env, s.heads, s.stored, s.cache, s.done) && Enabled(env, s, step) && !step.Know?
    requires CallerOk(env, s.callers[step.caller])
    ensures CallerOk(env, Moved(env, s, step))
  {
    var caller := s.callers[step.caller];
    match step
    case LookUp(_) => LookUpCaller(env, s, caller);
    case ReadCurrent(_, _) => ReadCaller(env, s, step);
    case ReadStore(_, _) => ReadCaller(env, s, step);
    case LoadBlock(_, fails) => LoadCaller(env, caller, fails);
    case NextPrev(_) => PrevCaller(env, caller);
    case Apply(_, fails, _) => ApplyCaller(env, caller, fails);
    case Complete(_, _) => CompleteCaller(env, caller);
    case Deliver(_) => DeliverCaller(env, caller);
    case _ => EndWaitCaller(env, s, step);
  }

  /** Every other step leaves the caller's tasks as they are. */
  lemma MovedTasks<S>(env: Env<S>, s: State<S>, step: Step<S>)
    requires Enabled(env, s, step) && !step.Know? && !step.Complete? && !Opens(s, step)
    requires CallerOk(env, s.callers[step.caller])
    ensures SameTasks(s.callers[step.caller].stack, Moved(env, s, step).stack)
  {
    var caller := s.callers[step.caller];
    if step.LoadBlock? {
      LoadCaller(env, caller, step.fails);
    } else if step.Deliver? {
      DeliverCaller(env, caller);
    } else {
      assert Moved(env, s, step).stack == caller.stack;
    }
  }

  lemma TasksKept<S>(env: Env<S>, s: State<S>, step: Step<S>)
    requires TasksOk(s.tasks, s.callers) && Enabled(env, s, step) && !step.Know?
    requires CallerOk(env, s.callers[step.caller])
    ensures TasksOk(TasksAfter(env, s, step), s.callers[step.caller := Moved(env, s, step)])
  {
    var (c, caller) := (step.caller, s.callers[step.caller]);
    if Opens(s, step) {
      OwnTasks(s.tasks, s.callers, c, Frame(caller.pc.block, s.nextTask, [], []), Moved(env, s, step));
    } else if step.Complete? {
      CompleteTasks(s.tasks, s.callers, c, Moved(env, s, step));
    } else {
      MovedTasks(env, s, step);
      SameTasksOk(s.tasks, s.callers, c, Moved(env, s, step));
    }
  }

  lemma SharedKept<S>(env: Env<S>, s: State<S>, step: Step<S>)
    requires SharedOk(env, s.heads, s.stored, s.cache, s.done) && Enabled(env, s, step) && !step.Know?
    requires CallerOk(env, s.callers[step.caller])
    ensures SharedOk(env, s.heads, StoredAfter(env, s, step), CacheAfter(env, s, step), DoneAfter(env, s, step))
  {
    var (caller, stored) := (s.callers[step.caller], StoredAfter(env, s, step));
    if step.Apply? {
      ApplyCaller(env, caller, step.fails);
      assert CacheAfter(env, s, step) == s.cache && DoneAfter(env, s, step) == s.done;
    } else {
      assert stored == s.stored;
    }
  }

  /** A task that leaves the table is done. */
  lemma WaitKept<S>(env: Env<S>, s: State<S>, step: Step<S>, pc: Pc<S>)
    requires TasksOk(s.tasks, s.callers) && Enabled(env, s, step) && !step.Know? && WaitOk(s.tasks, s.done, pc)
    ensures WaitOk(TasksAfter(env, s, step), DoneAfter(env, s, step), pc)
  {
    if step.Complete? {
      assert Names(s.tasks, step.caller, |s.callers[step.caller].stack| - 1, Top(s.callers[step.caller]));
    }
  }

  lemma MovedWait<S>(env: Env<S>, s: State<S>, step: Step<S>)
    requires Enabled(env, s, step) && !step.Know?
    ensures WaitOk(TasksAfter(env, s, step), DoneAfter(env, s, step), Moved(env, s, step).pc)
  {
  }

  lemma CallersKept<S>(env: Env<S>, s: State<S>, step: Step<S>)
    requires Inv(env, s) && Enabled(env, s, step) && !step.Know?
    ensures CallersOk(env, TasksAfter(env, s, step), DoneAfter(env, s, step),
                      s.callers[step.caller := Moved(env, s, step)])
  {
    var (tasks, done, moved) := (TasksAfter(env, s, step), DoneAfter(env, s, step), Moved(env, s, step));
    assert CallerOk(env, s.callers[step.caller]);
    MovedOk(env, s, step);
    MovedWait(env, s, step);
    forall d | d in s.callers
      ensures CallerOk(env, s.callers[d]) && WaitOk(tasks, done, s.callers[d].pc)
    {
      WaitKept(env, s, step, s.callers[d].pc);
    }
  }

  lemma StepKeepsInv<S>(env: Env<S>, s: State<S>, step: Step<S>)
    requires Inv(env, s)
    ensures Inv(env, Next(env, s, step))
  {
    if Enabled(env, s, step) && !step.Know? {
      assert CallerOk(env, s.callers[step.caller]);
      CallersKept(env, s, step);
      TasksKept(env, s, step);
      SharedKept(env, s, step);
    }
  }

  lemma {:induction false} RunKeepsInv<S>(env: Env<S>, start: State<S>, steps: seq<Step<S>>)
    requires Inv(env, start)
    ensures Inv(env, Run(env, start, steps))
  {
    if steps != [] {
      RunKeepsInv(env, start, steps[..|steps| - 1]);
      StepKeepsInv(env, Run(env, start, steps[..|steps| - 1]), steps[|steps| - 1]);
    }
  }

  // What the invariant gives.

  /** Every state in the cache, in a finished task or on its way to a caller is the plain one. */
  lemma ResultsArePlain<S>(env: Env<S>, start: State<S>, steps: seq<Step<S>>)
    requires Initial(env, start)
    ensures var s := Run(env, start, steps);
            && (forall b :: b in s.cache ==> Plain(env, b) == Some(s.cache[b]))
            && (forall k :: k in s.done && s.done[k].Some? ==> Plain(env, k.0) == s.done[k])
            && (forall c :: c in s.callers && s.callers[c].pc.Give? && s.callers[c].pc.result.Some? ==>
                  Plain(env, s.callers[c].pc.block) == s.callers[c].pc.result)
  {
    InitialInv(env, start);
    RunKeepsInv(env, start, steps);
    var s := Run(env, start, steps);
    forall c | c in s.callers && s.callers[c].pc.Give? && s.callers[c].pc.result.Some?
      ensures Plain(env, s.callers[c].pc.block) == s.callers[c].pc.result
    {
      assert CallerOk(env, s.callers[c]);
    }
  }

  /** At no time are there two resolutions of one block, whether by two callers or within one. */
  lemma SingleFlight<S>(env: Env<S>, start: State<S>, steps: seq<Step<S>>, c: nat, i: nat, d: nat, j: nat)
    requires Initial(env, start)
    requires var s := Run(env, start, steps);
             && c in s.callers && i < |s.callers[c].stack|
             && d in s.callers && j < |s.callers[d].stack|
             && s.callers[c].stack[i].block == s.callers[d].stack[j].block
    ensures c == d && i == j
  {
    InitialInv(env, start);
    RunKeepsInv(env, start, steps);
    var s := Run(env, start, steps);
    assert Names(s.tasks, c, i, s.callers[c].stack[i]);
    assert Names(s.tasks, d, j, s.callers[d].stack[j]);
  }

  /** Inner resolutions have lower seqnos. */
  lemma {:induction false} StackDescends<S>(env: Env<S>, stack: seq<Frame<S>>, i: nat, j: nat)
    requires StackOk(env, stack) && i <= j < |stack|
    ensures stack[j].block.seqno + (j - i) <= stack[i].block.seqno
    decreases j
  {
    if i < j {
      StackDescends(env, stack, i, j - 1);
      assert Asking(env, stack[j - 1], stack[j - 1 + 1].block);
    }
  }

  /** A caller's recursion is no deeper than its first block's seqno. */
  lemma StackIsBounded<S>(env: Env<S>, start: State<S>, steps: seq<Step<S>>, c: nat)
    requires Initial(env, start)
    ensures var s := Run(env, start, steps);
            c in s.callers && s.callers[c].stack != [] ==> |s.callers[c].stack| <= s.callers[c].stack[0].block.seqno + 1
  {
    InitialInv(env, start);
    RunKeepsInv(env, start, steps);
    var s := Run(env, start, steps);
    if c in s.callers && s.callers[c].stack != [] {
      assert CallerOk(env, s.callers[c]);
      StackDescends(env, s.callers[c].stack, 0, |s.callers[c].stack| - 1);
    }
  }

  /** c waits for a task that d has in flight. */
  ghost predicate WaitsFor<S>(s: State<S>, c: nat, d: nat) {
    && c in s.callers && s.callers[c].pc.Wait?
    && s.callers[c].pc.block in s.tasks
    && s.tasks[s.callers[c].pc.block] == Task(s.callers[c].pc.task, d, s.tasks[s.callers[c].pc.block].depth)
  }

  /** A caller waiting on a waiting caller waits for the higher seqno. */
  lemma WaitsDescend<S>(env: Env<S>, s: State<S>, c: nat, d: nat)
    requires Inv(env, s) && WaitsFor(s, c, d) && d in s.callers && s.callers[d].pc.Wait?
    ensures s.callers[d].pc.block.seqno < s.callers[c].pc.block.seqno
  {
    var task := s.tasks[s.callers[c].pc.block];
    assert Owned(task, s.callers, s.callers[c].pc.block);
    assert CallerOk(env, s.callers[d]);
    StackDescends(env, s.callers[d].stack, task.depth, |s.callers[d].stack| - 1);
  }

  ghost predicate WaitPath<S>(s: State<S>, path: seq<nat>) {
    |path| > 0 && forall i :: 0 <= i < |path| - 1 ==> WaitsFor(s, path[i], path[i + 1])
  }

  lemma {:induction false} PathDescends<S>(env: Env<S>, s: State<S>, path: seq<nat>)
    requires Inv(env, s) && WaitPath(s, path) && |path| > 1 && WaitsFor(s, path[0], path[1])
    requires path[|path| - 1] in s.callers && s.callers[path[|path| - 1]].pc.Wait?
    ensures s.callers[path[|path| - 1]].pc.block.seqno < s.callers[path[0]].pc.block.seqno
  {
    var n := |path| - 1;
    assert WaitsFor(s, path[n - 1], path[n - 1 + 1]);
    WaitsDescend(env, s, path[n - 1], path[n]);
    if n > 1 {
      PathDescends(env, s, path[..n]);
    }
  }

  /** No caller waits, through any chain of others, for itself. */
  lemma WaitsAreAcyclic<S>(env: Env<S>, start: State<S>, steps: seq<Step<S>>, path: seq<nat>)
    requires Initial(env, start)
    requires |path| > 1 && WaitPath(Run(env, start, steps), path)
    ensures path[0] != path[|path| - 1]
  {
    InitialInv(env, start);
    RunKeepsInv(env, start, steps);
    var s := Run(env, start, steps);
    assert WaitsFor(s, path[0], path[0 + 1]);
    if path[0] == path[|path| - 1] {
      PathDescends(env, s, path);
    }
  }

  // And the other direction: without faults an error means that the plain state does not exist.

  /** The shard's head is the block, with its state loaded. */
  predicate LoadedHead<S>(heads: map<(int, nat), Head<S>>, b: Block) {
    var key := (b.workchain, b.shard);
    key in heads && heads[key].block == b && heads[key].cell.Some?
  }

  /** Every known state is in the store or is a loaded head. */
  ghost predicate KnownHeld<S>(env: Env<S>, heads: map<(int, nat), Head<S>>, stored: set<Block>) {
    forall b :: b in env.base ==> b in stored || LoadedHead(heads, b)
  }

  /** No I/O error, no cancelled wait, the known states stay held and the store only grows. */
  ghost predicate Faultless<S>(env: Env<S>, stored: set<Block>, step: Step<S>) {
    match step
    case Cancel(_) => false
    case ReadCurrent(_, fails) => !fails
    case ReadStore(_, fails) => !fails
    case LoadBlock(_, fails) => !fails
    case Apply(_, fails, _) => !fails
    case Know(heads, after) => KnownHeld(env, heads, after.Keys) && stored <= after.Keys
    case _ => true
  }

  /**
   A frame at the store has its known state there, one that has come past it is of an unknown block, and errors are
   of blocks without a state.
  */
  ghost predicate ExactCaller<S>(env: Env<S>, stored: set<Block>, c: Caller<S>) {
    && (c.pc.AtStore? && c.stack != [] && Top(c).block in env.base ==> Top(c).block in stored)
    && (forall i :: 0 <= i < |c.stack| && c.stack[i].refs != [] ==> c.stack[i].block !in env.base)
    && (c.pc.AtLoad? && c.stack != [] ==> Top(c).block !in env.base)
    && (c.pc.Give? && c.pc.result.None? ==> Plain(env, c.pc.block) == None)
    && (c.pc.Finish? && c.pc.outcome.None? && c.stack != [] ==> Plain(env, Top(c).block) == None)
  }

  ghost predicate Exact<S>(env: Env<S>, s: State<S>) {
    && KnownHeld(env, s.heads, s.stored.Keys)
    && ExactDone(env, s.done)
    && ExactCallers(env, s.stored.Keys, s.callers)
  }

  ghost predicate ExactCallers<S>(env: Env<S>, stored: set<Block>, callers: map<nat, Caller<S>>) {
    forall c :: c in callers ==> ExactCaller(env, stored, callers[c])
  }

  ghost predicate ExactDone<S>(env: Env<S>, done: map<(Block, nat), Option<S>>) {
    forall k :: k in done && done[k].None? ==> Plain(env, k.0) == None
  }

  lemma {:induction false} MissingPrev<S>(env: Env<S>, bound: nat, refs: seq<Block>, k: nat)
    requires (forall r :: r in refs ==> r.seqno < bound) && k < |refs| && Plain(env, refs[k]) == None
    ensures PlainAll(env, bound, refs) == None
  {
    if k < |refs| - 1 {
      MissingPrev(env, bound, refs[..|refs| - 1], k);
    }
  }

  /** A frame whose next reference is not a predecessor, or has no state, has none itself. */
  lemma NoStateWithout<S>(env: Env<S>, f: Frame<S>)
    requires FrameOk(env, f) && |f.got| < |f.refs| && f.block !in env.base
    requires !ValidPrev(f.block, f.refs[|f.got|]) || Plain(env, f.refs[|f.got|]) == None
    ensures Plain(env, f.block) == None
  {
    var refs := env.load[f.block].prevRefs;
    if forall r :: r in refs ==> ValidPrev(f.block, r) {
      MissingPrev(env, f.block.seqno, refs, |f.got|);
    } else {
      assert exists r :: r in refs && !ValidPrev(f.block, r);
    }
  }

  lemma ExactRead<S>(env: Env<S>, s: State<S>, step: Step<S>)
    requires KnownHeld(env, s.heads, s.stored.Keys) && Enabled(env, s, step) && Faultless(env, s.stored.Keys, step)
             && (step.ReadCurrent? || step.ReadStore?)
    requires ExactCaller(env, s.stored.Keys, s.callers[step.caller])
    ensures ExactCaller(env, s.stored.Keys, Moved(env, s, step))
  {
    assert Moved(env, s, step).stack == s.callers[step.caller].stack;
  }

  lemma ExactLoad<S>(env: Env<S>, stored: set<Block>, c: Caller<S>)
    requires CallerOk(env, c) && ExactCaller(env, stored, c) && c.pc.AtLoad?
    ensures ExactCaller(env, stored, LoadNext(env, c, false))
  {
  }

  lemma ExactPrev<S>(env: Env<S>, stored: set<Block>, c: Caller<S>)
    requires CallerOk(env, c) && ExactCaller(env, stored, c) && c.pc.AtPrev?
    ensures ExactCaller(env, stored, PrevNext(c))
  {
    var f := Top(c);
    assert FrameOk(env, f);
    if |f.got| < |f.refs| && !ValidPrev(f.block, f.refs[|f.got|]) {
      NoStateWithout(env, f);
    }
  }

  lemma ExactApply<S>(env: Env<S>, stored: set<Block>, c: Caller<S>)
    requires CallerOk(env, c) && ExactCaller(env, stored, c) && c.pc.AtApply?
    ensures ExactCaller(env, stored, Go(c, Finish(env.apply(Top(c).block, Top(c).got))))
  {
    assert FrameOk(env, Top(c));
    ApplyIsPlain(env, Top(c));
  }

  lemma ExactDeliver<S>(env: Env<S>, stored: set<Block>, c: Caller<S>)
    requires CallerOk(env, c) && ExactCaller(env, stored, c) && c.pc.Give?
    ensures ExactCaller(env, stored, DeliverNext(c))
  {
    if c.stack != [] && c.pc.result.None? {
      assert FrameOk(env, Top(c));
      NoStateWithout(env, Top(c));
    }
  }

  lemma ExactLookUp<S>(env: Env<S>, s: State<S>, c: Caller<S>)
    requires ExactCaller(env, s.stored.Keys, c) && c.pc.Enter?
    ensures ExactCaller(env, s.stored.Keys, LookUpNext(s, c))
  {
  }

  lemma ExactEndWait<S>(env: Env<S>, s: State<S>, step: Step<S>)
    requires Exact(env, s) && Enabled(env, s, step) && (step.Call? || step.WaitDone?)
    ensures ExactCaller(env, s.stored.Keys, Moved(env, s, step))
  {
    assert ExactCaller(env, s.stored.Keys, s.callers[step.caller]);
    assert Moved(env, s, step).stack == s.callers[step.caller].stack;
  }

  lemma ExactMoved<S>(env: Env<S>, s: State<S>, step: Step<S>)
    requires Exact(env, s) && Enabled(env, s, step) && Faultless(env, s.stored.Keys, step) && !step.Know?
    requires CallerOk(env, s.callers[step.caller]) && ExactCaller(env, s.stored.Keys, s.callers[step.caller])
    ensures ExactCaller(env, s.stored.Keys, Moved(env, s, step))
  {
    var caller := s.callers[step.caller];
    match step
    case LookUp(_) => ExactLookUp(env, s, caller);
    case ReadCurrent(_, _) => ExactRead(env, s, step);
    case ReadStore(_, _) => ExactRead(env, s, step);
    case LoadBlock(_, _) => ExactLoad(env, s.stored.Keys, caller);
    case NextPrev(_) => ExactPrev(env, s.stored.Keys, caller);
    case Apply(_, _, _) => ExactApply(env, s.stored.Keys, caller);
    case Complete(_, _) =>
    case Deliver(_) => ExactDeliver(env, s.stored.Keys, caller);
    case _ => ExactEndWait(env, s, step);
  }

  lemma StepKeepsExact<S>(env: Env<S>, s: State<S>, step: Step<S>)
    requires Inv(env, s) && Exact(env, s) && Faultless(env, s.stored.Keys, step)
    ensures Exact(env, Next(env, s, step))
  {
    if Enabled(env, s, step) && !step.Know? {
      assert CallerOk(env, s.callers[step.caller]) && ExactCaller(env, s.stored.Keys, s.callers[step.caller]);
      ExactMoved(env, s, step);
      DoneStaysExact(env, s, step);
      ExactReplaced(env, s.stored.Keys, s.callers, step.caller, Moved(env, s, step));
      StoredGrows(env, s, step);
      ExactGrows(env, s.stored.Keys, StoredAfter(env, s, step).Keys, s.callers[step.caller := Moved(env, s, step)]);
    } else if Enabled(env, s, step) {
      ExactGrows(env, s.stored.Keys, step.stored.Keys, s.callers);
    }
  }

  lemma ExactReplaced<S>(env: Env<S>, stored: set<Block>, callers: map<nat, Caller<S>>, c: nat, moved: Caller<S>)
    requires ExactCallers(env, stored, callers) && ExactCaller(env, stored, moved)
    ensures ExactCallers(env, stored, callers[c := moved])
  {
  }

  lemma ExactGrows<S>(env: Env<S>, stored: set<Block>, more: set<Block>, callers: map<nat, Caller<S>>)
    requires ExactCallers(env, stored, callers) && stored <= more
    ensures ExactCallers(env, more, callers)
  {
    forall c | c in callers
      ensures ExactCaller(env, more, callers[c])
    {
      assert ExactCaller(env, stored, callers[c]);
    }
  }

  lemma StoredGrows<S>(env: Env<S>, s: State<S>, step: Step<S>)
    requires Enabled(env, s, step) && !step.Know?
    ensures s.stored.Keys <= StoredAfter(env, s, step).Keys
  {
  }

  lemma DoneStaysExact<S>(env: Env<S>, s: State<S>, step: Step<S>)
    requires ExactDone(env, s.done) && Enabled(env, s, step) && !step.Know?
    requires ExactCaller(env, s.stored.Keys, s.callers[step.caller])
    ensures ExactDone(env, DoneAfter(env, s, step))
  {
  }

  /** Every step of the run is faultless where it is taken. */
  ghost predicate FaultlessAt<S>(env: Env<S>, start: State<S>, steps: seq<Step<S>>, n: nat)
    requires n < |steps|
  {
    Faultless(env, Run(env, start, steps[..n]).stored.Keys, steps[n])
  }

  lemma {:induction false} RunKeepsExact<S>(env: Env<S>, start: State<S>, steps: seq<Step<S>>, n: nat)
    requires Initial(env, start) && KnownHeld(env, start.heads, start.stored.Keys) && n <= |steps|
    requires forall i :: 0 <= i < n ==> FaultlessAt(env, start, steps, i)
    ensures Inv(env, Run(env, start, steps[..n])) && Exact(env, Run(env, start, steps[..n]))
  {
    if n == 0 {
      InitialInv(env, start);
    } else {
      RunKeepsExact(env, start, steps, n - 1);
      assert FaultlessAt(env, start, steps, n - 1);
      ExactNext(env, start, steps, n);
    }
  }

  lemma ExactNext<S>(env: Env<S>, start: State<S>, steps: seq<Step<S>>, n: nat)
    requires 0 < n <= |steps| && FaultlessAt(env, start, steps, n - 1)
    requires Inv(env, Run(env, start, steps[..n - 1])) && Exact(env, Run(env, start, steps[..n - 1]))
    ensures Inv(env, Run(env, start, steps[..n])) && Exact(env, Run(env, start, steps[..n]))
  {
    assert steps[..n][..n - 1] == steps[..n - 1];
    StepKeepsInv(env, Run(env, start, steps[..n - 1]), steps[n - 1]);
    StepKeepsExact(env, Run(env, start, steps[..n - 1]), steps[n - 1]);
  }

  /**
   Without faults a caller is given exactly the plain result, state or error, as long as each known state is in the
   store or is a loaded head.
  */
  lemma AnswersAreExact<S>(env: Env<S>, start: State<S>, steps: seq<Step<S>>, c: nat)
    requires Initial(env, start) && KnownHeld(env, start.heads, start.stored.Keys)
    requires forall i :: 0 <= i < |steps| ==> FaultlessAt(env, start, steps, i)
    ensures var s := Run(env, start, steps);
            c in s.callers && s.callers[c].pc.Give? ==> s.callers[c].pc.result == Plain(env, s.callers[c].pc.block)
  {
    RunKeepsExact(env, start, steps, |steps|);
    assert steps[..|steps|] == steps;
    var s := Run(env, start, steps);
    if c in s.callers {
      assert CallerOk(env, s.callers[c]) && ExactCaller(env, s.stored.Keys, s.callers[c]);
    }
  }

  // What is known is not worked out again.

  /** A loaded head is given as it is, whatever the store has. */
  lemma LoadedHeadIsUsed<S>(env: Env<S>, s: State<S>, c: nat, state: S)
    requires Enabled(env, s, ReadCurrent(c, false))
    requires var b := Top(s.callers[c]).block;
             (b.workchain, b.shard) in s.heads && s.heads[(b.workchain, b.shard)] == Head(b, Some(state))
    ensures Next(env, s, ReadCurrent(c, false)).callers[c].pc == Finish(Some(state))
  {
  }

  /** A stored state is given as it is, and the block is neither loaded nor applied. */
  lemma StoredIsUsed<S>(env: Env<S>, s: State<S>, c: nat)
    requires Enabled(env, s, ReadStore(c, false)) && Top(s.callers[c]).block in s.stored
    ensures Next(env, s, ReadStore(c, false)).callers[c].pc == Finish(Some(s.stored[Top(s.callers[c]).block]))
  {
  }

  /** A state applied by a resolver that saves is in the store from then on. */
  lemma AppliedIsSaved<S>(env: Env<S>, s: State<S>, c: nat)
    requires Enabled(env, s, Apply(c, false, true))
    ensures var (f, r) := (Top(s.callers[c]), Next(env, s, Apply(c, false, true)));
            && r.callers[c].pc == Finish(env.apply(f.block, f.got))
            && (env.apply(f.block, f.got).Some? ==>
                f.block in r.stored && r.stored[f.block] == env.apply(f.block, f.got).value)
  {
  }

  /** A cached state is given at once, and a block being resolved is waited for: neither opens a task. */
  lemma CachedIsGiven<S>(env: Env<S>, s: State<S>, c: nat)
    requires Enabled(env, s, LookUp(c))
    ensures var (b, r) := (s.callers[c].pc.block, Next(env, s, LookUp(c)));
            && (b in s.cache ==> r.callers[c].pc == Give(b, Some(s.cache[b])) && r.tasks == s.tasks)
            && (b !in s.cache && b in s.tasks ==> r.callers[c].pc == Wait(b, s.tasks[b].id) && r.tasks == s.tasks)
            && (b !in s.cache && b !in s.tasks ==> b in r.tasks && r.tasks[b].owner == c)
  {
  }

  /** A resolved state is cached unless the eviction takes it, and its task is closed. */
  lemma ResolvedIsCached<S>(env: Env<S>, s: State<S>, c: nat, kept: set<Block>)
    requires Enabled(env, s, Complete(c, kept))
    ensures var (b, outcome) := (Top(s.callers[c]).block, s.callers[c].pc.outcome);
            var r := Next(env, s, Complete(c, kept));
            && b !in r.tasks
            && (outcome.Some? && (|s.cache| < CACHE_LIMIT || b in kept) ==> b in r.cache && r.cache[b] == outcome.value)
  {
    var (b, outcome) := (Top(s.callers[c]).block, s.callers[c].pc.outcome);
    if outcome.Some? && |s.cache| < CACHE_LIMIT {
      NewIsKept(s.cache, b, outcome.value, kept);
    }
  }

  lemma NewIsKept<S>(cache: map<Block, S>, b: Block, state: S, kept: set<Block>)
    requires |cache| < CACHE_LIMIT && Kept(cache[b := state], kept)
    ensures b in kept
  {
    var after: map<Block, S> := cache[b := state];
    assert after.Keys == cache.Keys + {b};
    assert |after| == |after.Keys| <= CACHE_LIMIT;
  }

  /** Every waiter of a task is given what its owner got, an error included. */
  lemma WaitersAreGiven<S>(env: Env<S>, s: State<S>, c: nat, kept: set<Block>, w: nat)
    requires Enabled(env, s, Complete(c, kept)) && w in s.callers && w != c
    requires s.callers[w].pc == Wait(Top(s.callers[c]).block, Top(s.callers[c]).task)
    ensures var r := Next(env, s, Complete(c, kept));
            && Enabled(env, r, WaitDone(w))
            && Next(env, r, WaitDone(w)).callers[w].pc == Give(Top(s.callers[c]).block, s.callers[c].pc.outcome)
  {
    var r := Next(env, s, Complete(c, kept));
    assert r.callers[w] == s.callers[w];
    assert r.done[(Top(s.callers[c]).block, Top(s.callers[c]).task)] == s.callers[c].pc.outcome;
  }

  // Someone can always go on.

  ghost predicate Moves<S>(step: Step<S>) {
    !step.Call? && !step.Cancel? && !step.Know?
  }

  /** Of any set of blocks, some n with the highest seqnos. */
  lemma {:induction false} HighestExist(keys: set<Block>, n: nat) returns (kept: set<Block>)
    requires n <= |keys|
    ensures kept <= keys && |kept| == n
    ensures forall k, e :: k in kept && e in keys - kept ==> e.seqno <= k.seqno
    decreases |keys|
  {
    if n == |keys| {
      kept := keys;
    } else {
      var least := LowestExists(keys);
      kept := HighestExist(keys - {least}, n);
    }
  }

  lemma {:induction false} LowestExists(keys: set<Block>) returns (least: Block)
    requires keys != {}
    ensures least in keys && forall b :: b in keys ==> least.seqno <= b.seqno
    decreases |keys|
  {
    least :| least in keys;
    if keys != {least} {
      var other := LowestExists(keys - {least});
      if other.seqno < least.seqno {
        least := other;
      }
    }
  }

  /** A caller that is neither idle nor waiting can take its next step. */
  lemma CallerMoves<S>(env: Env<S>, s: State<S>, c: nat) returns (step: Step<S>)
    requires c in s.callers && CallerOk(env, s.callers[c]) && !s.callers[c].pc.Idle? && !s.callers[c].pc.Wait?
    ensures Enabled(env, s, step) && Moves(step)
  {
    match s.callers[c].pc
    case Enter(_) => step := LookUp(c);
    case Give(_, _) => step := Deliver(c);
    case AtCurrent => step := ReadCurrent(c, false);
    case AtStore => step := ReadStore(c, false);
    case AtLoad => step := LoadBlock(c, false);
    case AtPrev => assert FrameOk(env, Top(s.callers[c])); step := NextPrev(c);
    case AtApply => step := Apply(c, false, false);
    case Finish(outcome) =>
      var kept: set<Block> := {};
      if outcome.Some? {
        kept := KeptExists(s.cache[Top(s.callers[c]).block := outcome.value]);
      }
      step := Complete(c, kept);
  }

  lemma KeptExists<S>(cache: map<Block, S>) returns (kept: set<Block>)
    ensures Kept(cache, kept)
  {
    if |cache| <= CACHE_LIMIT {
      kept := cache.Keys;
    } else {
      kept := HighestExist(cache.Keys, CACHE_RETAIN);
    }
  }

  /** The waiting caller with the lowest awaited seqno. */
  lemma {:induction false} LowestWait<S>(s: State<S>, waiting: set<nat>) returns (c: nat)
    requires waiting != {} && forall d :: d in waiting ==> d in s.callers && s.callers[d].pc.Wait?
    ensures c in waiting && forall d :: d in waiting ==> s.callers[c].pc.block.seqno <= s.callers[d].pc.block.seqno
    decreases |waiting|
  {
    c :| c in waiting;
    if waiting != {c} {
      var other := LowestWait(s, waiting - {c});
      if s.callers[other].pc.block.seqno < s.callers[c].pc.block.seqno {
        c := other;
      }
    }
  }

  /** While any call is under way, some caller has a step to take without giving up a wait. */
  lemma NoDeadlock<S>(env: Env<S>, start: State<S>, steps: seq<Step<S>>, busy: nat)
    requires Initial(env, start)
    requires busy in Run(env, start, steps).callers && !Run(env, start, steps).callers[busy].pc.Idle?
    ensures exists step :: Enabled(env, Run(env, start, steps), step) && Moves(step)
  {
    InitialInv(env, start);
    RunKeepsInv(env, start, steps);
    var s := Run(env, start, steps);
    var waiting := set d | d in s.callers && s.callers[d].pc.Wait?;
    if d :| d in s.callers && !s.callers[d].pc.Idle? && !s.callers[d].pc.Wait? {
      var step := CallerMoves(env, s, d);
    } else {
      assert busy in waiting;
      var c := LowestWait(s, waiting);
      LowestMoves(env, s, c);
    }
  }

  /** When every busy caller waits, the one awaiting the lowest seqno finds its task done. */
  lemma LowestMoves<S>(env: Env<S>, s: State<S>, c: nat)
    requires Inv(env, s) && c in s.callers && s.callers[c].pc.Wait?
    requires forall d :: d in s.callers ==> s.callers[d].pc.Idle? || s.callers[d].pc.Wait?
    requires forall d :: d in s.callers && s.callers[d].pc.Wait? ==>
             s.callers[c].pc.block.seqno <= s.callers[d].pc.block.seqno
    ensures Enabled(env, s, WaitDone(c)) && Moves<S>(WaitDone(c))
  {
    var pc := s.callers[c].pc;
    assert WaitOk(s.tasks, s.done, pc);
    if (pc.block, pc.task) !in s.done {
      var d := s.tasks[pc.block].owner;
      assert Owned(s.tasks[pc.block], s.callers, pc.block);
      assert CallerOk(env, s.callers[d]);
      WaitsDescend(env, s, c, d);
    }
  }

  // And every call ends: a rank that each of a caller's own steps lowers.

  /** The most steps a caller takes to resolve a block of this seqno. */
  function Work(seqno: nat): (w: nat) {
    if seqno == 0 then 12 else 12 + 2 * Work(seqno - 1)
  }

  lemma {:induction false} WorkGrows(a: nat, b: nat)
    requires a <= b
    ensures Work(a) <= Work(b)
    decreases b
  {
    if a < b {
      WorkGrows(a, b - 1);
    }
  }

  function WorkBelow(b: Block): (w: nat) {
    if b.seqno == 0 then 0 else Work(b.seqno - 1)
  }

  /** What a frame that asked for a reference has left besides that reference. */
  function Suspended<S>(f: Frame<S>): (rank: nat) {
    if |f.got| == 0 then 4 + WorkBelow(f.block) else 4
  }

  function SuspendedAll<S>(stack: seq<Frame<S>>): (rank: nat) {
    if stack == [] then 0 else SuspendedAll(stack[..|stack| - 1]) + Suspended(stack[|stack| - 1])
  }

  function Active<S>(f: Frame<S>, pc: Pc<S>): (rank: nat) {
    match pc
    case AtCurrent => 11 + 2 * WorkBelow(f.block)
    case AtStore => 10 + 2 * WorkBelow(f.block)
    case AtLoad => 9 + 2 * WorkBelow(f.block)
    case AtPrev => if |f.got| == 0 then 5 + 2 * WorkBelow(f.block) else if |f.got| == 1 then 5 + WorkBelow(f.block)
      else 5
    case AtApply => 4
    case _ => 3
  }

  function Rank<S>(c: Caller<S>): (rank: nat) {
    match c.pc
    case Idle => 0
    case Enter(b) => SuspendedAll(c.stack) + Work(b.seqno)
    case Wait(_, _) => SuspendedAll(c.stack) + 3
    case Give(_, _) => SuspendedAll(c.stack) + 2
    case _ => if c.stack == [] then 0 else SuspendedAll(Below(c)) + Active(Top(c), c.pc)
  }

  lemma EnterRank<S>(env: Env<S>, c: Caller<S>)
    requires CallerOk(env, c) && c.pc.AtPrev?
    ensures Rank(PrevNext(c)) < Rank(c)
  {
    var f := Top(c);
    assert FrameOk(env, f);
    if |f.got| < |f.refs| && ValidPrev(f.block, f.refs[|f.got|]) {
      WorkGrows(f.refs[|f.got|].seqno, f.block.seqno - 1);
    }
  }

  lemma DeliverRank<S>(env: Env<S>, c: Caller<S>)
    requires CallerOk(env, c) && c.pc.Give?
    ensures Rank(DeliverNext(c)) < Rank(c)
  {
    if c.stack != [] {
      var f := Top(c);
      assert FrameOk(env, f);
      if c.pc.result.Some? {
        assert Below(DeliverNext(c)) == Below(c);
      }
    }
  }

  lemma LookUpRank<S>(s: State<S>, c: Caller<S>)
    requires c.pc.Enter?
    ensures Rank(LookUpNext(s, c)) < Rank(c)
  {
    var r := LookUpNext(s, c);
    if r.pc.AtCurrent? {
      assert Below(r) == c.stack;
    }
  }

  lemma LoadRank<S>(env: Env<S>, c: Caller<S>, fails: bool)
    requires CallerOk(env, c) && c.pc.AtLoad?
    ensures Rank(LoadNext(env, c, fails)) < Rank(c)
  {
    var r := LoadNext(env, c, fails);
    assert FrameOk(env, Top(c));
    assert Below(r) == Below(c);
  }

  /** A caller's own step lowers its rank. */
  lemma OwnStepLowersRank<S>(env: Env<S>, s: State<S>, step: Step<S>)
    requires Enabled(env, s, step) && !step.Call? && !step.Know? && CallerOk(env, s.callers[step.caller])
    ensures Rank(Moved(env, s, step)) < Rank(s.callers[step.caller])
  {
    var caller := s.callers[step.caller];
    if step.LookUp? {
      LookUpRank(s, caller);
    } else if step.LoadBlock? {
      LoadRank(env, caller, step.fails);
    } else if step.NextPrev? {
      EnterRank(env, caller);
    } else if step.Deliver? {
      DeliverRank(env, caller);
    } else if !step.Complete? {
      StillRank(env, s, step);
    }
  }

  /** Steps that leave the stack alone. */
  lemma StillRank<S>(env: Env<S>, s: State<S>, step: Step<S>)
    requires step.WaitDone? || step.Cancel? || step.ReadCurrent? || step.ReadStore? || step.Apply?
    requires Enabled(env, s, step) && CallerOk(env, s.callers[step.caller])
    ensures Rank(Moved(env, s, step)) < Rank(s.callers[step.caller])
  {
    assert Moved(env, s, step).stack == s.callers[step.caller].stack;
  }

  /** The steps of a run that this caller really takes. */
  ghost function OwnSteps<S>(env: Env<S>, start: State<S>, steps: seq<Step<S>>, c: nat): (n: nat) {
    if steps == [] then 0
    else
      var (init, last) := (steps[..|steps| - 1], steps[|steps| - 1]);
      OwnSteps(env, start, init, c)
      + if Enabled(env, Run(env, start, init), last) && !last.Know? && last.caller == c then 1 else 0
  }

  /** However the callers interleave, one call takes at most Work of its block's seqno of its own steps. */
  lemma {:induction false} EveryCallEnds<S>(env: Env<S>, start: State<S>, steps: seq<Step<S>>, c: nat)
    requires Inv(env, start) && c in start.callers && start.callers[c].stack == [] && start.callers[c].pc.Enter?
    requires forall step :: step in steps && step.Call? ==> step.caller != c
    ensures c in Run(env, start, steps).callers
    ensures OwnSteps(env, start, steps, c)
            + Rank(Run(env, start, steps).callers[c]) <= Work(start.callers[c].pc.block.seqno)
  {
    if steps != [] {
      var (init, last) := (steps[..|steps| - 1], steps[|steps| - 1]);
      EveryCallEnds(env, start, init, c);
      RunKeepsInv(env, start, init);
      var s := Run(env, start, init);
      if Enabled(env, s, last) && !last.Know? && last.caller == c {
        assert CallerOk(env, s.callers[c]);
        OwnStepLowersRank(env, s, last);
      }
    }
  }

  // The eviction itself.

  /** The keys in rising seqno order. */
  method SortBySeqno(keys: set<Block>) returns (sorted: seq<Block>)
    ensures (forall b :: b in sorted <==> b in keys) && |sorted| == |keys|
    ensures forall i, j :: 0 <= i < j < |sorted| ==> sorted[i] != sorted[j] && sorted[i].seqno <= sorted[j].seqno
  {
    var rest := keys;
    sorted := [];
    while rest != {}
      invariant rest <= keys && |sorted| + |rest| == |keys|
      invariant forall b :: b in sorted <==> b in keys && b !in rest
      invariant forall i, j :: 0 <= i < j < |sorted| ==> sorted[i] != sorted[j] && sorted[i].seqno <= sorted[j].seqno
      invariant forall i, b :: 0 <= i < |sorted| && b in rest ==> sorted[i].seqno <= b.seqno
      decreases |rest|
    {
      var least := LowestSeqno(rest);
      assert forall i :: 0 <= i < |sorted| ==> sorted[i] in sorted;
      sorted := sorted + [least];
      rest := rest - {least};
    }
  }

  method LowestSeqno(keys: set<Block>) returns (least: Block)
    requires keys != {}
    ensures least in keys && forall b :: b in keys ==> least.seqno <= b.seqno
  {
    least :| least in keys;
    var rest := keys - {least};
    while rest != {}
      invariant least in keys && rest <= keys
      invariant forall b :: b in keys - rest ==> least.seqno <= b.seqno
      decreases |rest|
    {
      var b :| b in rest;
      if b.seqno < least.seqno {
        least := b;
      }
      rest := rest - {b};
    }
  }

  /** Beyond the limit, drops the lowest seqnos down to the retained share. */
  method EvictCache<S>(cache: map<Block, S>) returns (r: map<Block, S>)
    ensures Kept(cache, r.Keys) && r == Restrict(cache, r.Keys)
    ensures |r| <= CACHE_LIMIT
  {
    r := cache;
    if |cache| <= CACHE_LIMIT {
      return;
    }
    var evictions := SortBySeqno(cache.Keys);
    var remove := |cache| - CACHE_RETAIN;
    r := DeleteAll(cache, evictions[..remove]);
    FrontIsLowest(evictions, remove, cache.Keys, r.Keys);
  }

  lemma FrontIsLowest(sorted: seq<Block>, n: nat, all: set<Block>, left: set<Block>)
    requires n <= |sorted| && (forall b :: b in sorted <==> b in all) && left == all - (set b | b in sorted[..n])
    requires forall i, j :: 0 <= i < j < |sorted| ==> sorted[i].seqno <= sorted[j].seqno
    ensures forall k, e :: k in left && e in all - left ==> e.seqno <= k.seqno
  {
    forall k, e | k in left && e in all - left
      ensures e.seqno <= k.seqno
    {
      assert k in sorted && k !in sorted[..n] && e in sorted[..n];
    }
  }

  method DeleteAll<S>(cache: map<Block, S>, keys: seq<Block>) returns (r: map<Block, S>)
    requires forall i :: 0 <= i < |keys| ==> keys[i] in cache && keys[i] !in keys[..i]
    ensures r.Keys == cache.Keys - (set b | b in keys) && |r| == |cache| - |keys|
    ensures r == Restrict(cache, r.Keys)
  {
    r := cache;
    for i := 0 to |keys|
      invariant forall b :: b in r <==> b in cache && b !in keys[..i]
      invariant forall b :: b in r ==> r[b] == cache[b]
      invariant |r| == |cache| - i
    {
      assert keys[..i + 1] == keys[..i] + [keys[i]];
      r := Without(r, keys[i]);
    }
    assert keys[..|keys|] == keys;
  }

  function Without<S>(m: map<Block, S>, k: Block): (r: map<Block, S>)
    requires k in m
    ensures |r| == |m| - 1
  {
    assert (m - {k}).Keys == m.Keys - {k};
    m - {k}
  }
}
