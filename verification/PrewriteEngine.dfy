/** The runner goroutine beside any number of producers (service/prewriter.go:64-79). */
module PrewriteEngine {
  import opened Common
  import opened PrewriteQueue

  /**
   Where the runner is. `draining` is set once the run context is done, after which the
   runner never parks again.
  */
  datatype Runner<T> =
    | Polling(draining: bool)
    | Parked
    | Batching(batch: seq<Job<T>>, draining: bool)
    | Stored(batch: seq<Job<T>>, draining: bool)
    | Rejected(draining: bool)
    | Closing
    | Stopped

  /**
   `log` is every job ever enqueued, `accepted` every job of the batches the store
   accepted; both only describe history.
  */
  datatype Engine<T> = Engine(queue: Queue<T>, runner: Runner<T>, log: seq<Job<T>>, accepted: seq<Job<T>>)

  datatype Step<T> =
    | Produce(value: T, bytes: nat)
    | PopFirst
    | PopMore
    | Save(ok: bool)
    | Settle
    | TakeWake
    | ContextDone
    | Shutdown(err: Option<Failure>)

  function Initial<T>(): (s: Engine<T>) {
    Engine(Queue([], 0, 0, None, false, false), Polling(false), [], [])
  }

  predicate Enabled<T>(s: Engine<T>, step: Step<T>) {
    match step
    case Produce(_, _) => true
    case PopFirst => s.runner.Polling?
    case PopMore => s.runner.Batching?
    case Save(_) => s.runner.Batching?
    case Settle => s.runner.Stored? || s.runner.Rejected?
    case TakeWake => s.runner.Parked? && s.queue.wake
    case ContextDone => s.runner.Parked?
    case Shutdown(_) => s.runner.Closing?
  }

  /** A step that is not enabled leaves the state as it is. */
  function Next<T>(s: Engine<T>, step: Step<T>): (r: Engine<T>) {
    if !Enabled(s, step) then s else
    match step
    case Produce(value, bytes) =>
      var queue := Enqueue(s.queue, value, bytes);
      s.(queue := queue, log := if Accepting(s.queue) then s.log + [Job(queue.next, value, bytes)] else s.log)
    case PopFirst =>
      var draining := s.runner.draining;
      if CanPop(s.queue) then s.(queue := Pop(s.queue), runner := Batching([s.queue.jobs[0]], draining))
      else s.(runner := if draining then Closing else Parked)
    case PopMore =>
      if CanPop(s.queue)
      then s.(queue := Pop(s.queue), runner := Batching(s.runner.batch + [s.queue.jobs[0]], s.runner.draining))
      else s
    case Save(ok) =>
      if ok then s.(runner := Stored(s.runner.batch, s.runner.draining), accepted := s.accepted + s.runner.batch)
      else s.(runner := Rejected(s.runner.draining))
    case Settle =>
      if s.runner.Stored? && s.runner.batch != []
      then s.(queue := MarkWritten(s.queue, s.runner.batch[|s.runner.batch| - 1].seqno),
              runner := Polling(s.runner.draining))
      else s.(queue := Fail(s.queue, StoreFailed), runner := Polling(s.runner.draining))
    case TakeWake =>
      s.(queue := s.queue.(wake := false), runner := Polling(false))
    case ContextDone =>
      s.(runner := Polling(true))
    case Shutdown(err) =>
      s.(queue := Close(s.queue, err), runner := Stopped)
  }

  /** Jobs the runner holds that the store has not answered for. */
  function InHand<T>(s: Engine<T>): (jobs: seq<Job<T>>) {
    if s.runner.Batching? then s.runner.batch else []
  }

  /** Jobs the store has accepted that are not marked written yet. */
  function Unmarked<T>(s: Engine<T>): (jobs: seq<Job<T>>) {
    if s.runner.Stored? then s.runner.batch else []
  }

  /** A batch was refused, whether or not the refusal is recorded in the queue yet. */
  predicate Broken<T>(s: Engine<T>) {
    s.runner.Rejected? || s.queue.err.Some?
  }

  ghost predicate Numbered<T>(log: seq<Job<T>>) {
    forall i :: 0 <= i < |log| ==> log[i].seqno == i + 1
  }

  ghost predicate Inv<T>(s: Engine<T>) {
    && Numbered(s.log) && s.queue.next == |s.log|
    && s.accepted <= s.log
    && s.queue.written + |Unmarked(s)| == |s.accepted|
    && (!Broken(s) ==> s.accepted + InHand(s) + s.queue.jobs == s.log)
    && (s.runner.Batching? ==> s.runner.batch != [] && s.accepted + s.runner.batch <= s.log)
    && (s.runner.Stored? ==>
          && s.runner.batch != []
          && s.runner.batch[|s.runner.batch| - 1].seqno == |s.accepted|)
    && (s.runner.Parked? && !Broken(s) && s.queue.jobs != [] ==> s.queue.wake)
    && (s.queue.closed <==> s.runner.Stopped?)
    && (s.queue.err.Some? ==> !s.runner.Batching? && !s.runner.Stored? && !s.runner.Rejected?)
    && (s.queue.err.Some? && !s.queue.closed ==> s.queue.err == Some(StoreFailed))
  }

  lemma InitialInv<T>()
    ensures Inv(Initial<T>())
  {
  }

  lemma ProduceKeepsInv<T>(s: Engine<T>, value: T, bytes: nat)
    requires Inv(s)
    ensures Inv(Next(s, Produce(value, bytes)))
  {
    if Accepting(s.queue) {
      var job := Job(s.queue.next + 1, value, bytes);
      assert s.accepted + InHand(s) + (s.queue.jobs + [job]) == (s.accepted + InHand(s) + s.queue.jobs) + [job];
    }
  }

  lemma PopKeepsInv<T>(s: Engine<T>, step: Step<T>)
    requires Inv(s) && Enabled(s, step) && (step.PopFirst? || step.PopMore?)
    ensures Inv(Next(s, step))
  {
    if CanPop(s.queue) {
      var first := s.queue.jobs[0];
      assert s.accepted + (InHand(s) + [first]) + s.queue.jobs[1..] == s.accepted + InHand(s) + s.queue.jobs;
      assert InHand(Next(s, step)) == InHand(s) + [first];
    }
  }

  lemma SaveKeepsInv<T>(s: Engine<T>, ok: bool)
    requires Inv(s) && Enabled(s, Save(ok))
    ensures Inv(Next(s, Save(ok)))
  {
    var r := Next(s, Save(ok));
    if ok {
      assert r.accepted[|r.accepted| - 1] == s.log[|r.accepted| - 1];
      assert (s.accepted + s.runner.batch) + [] + s.queue.jobs == s.accepted + s.runner.batch + s.queue.jobs;
    }
  }

  lemma StepKeepsInv<T>(s: Engine<T>, step: Step<T>)
    requires Inv(s)
    ensures Inv(Next(s, step))
  {
    if Enabled(s, step) {
      match step
      case Produce(value, bytes) => ProduceKeepsInv(s, value, bytes);
      case PopFirst => PopKeepsInv(s, step);
      case PopMore => PopKeepsInv(s, step);
      case Save(ok) => SaveKeepsInv(s, ok);
      case _ =>
    }
  }

  /** The state after a list of attempted steps: every interleaving is one such list. */
  function Run<T>(steps: seq<Step<T>>): (s: Engine<T>) {
    if steps == [] then Initial() else Next(Run(steps[..|steps| - 1]), steps[|steps| - 1])
  }

  lemma {:induction false} RunKeepsInv<T>(steps: seq<Step<T>>)
    ensures Inv(Run(steps))
  {
    if steps == [] {
      InitialInv<T>();
    } else {
      RunKeepsInv(steps[..|steps| - 1]);
      StepKeepsInv(Run(steps[..|steps| - 1]), steps[|steps| - 1]);
    }
  }

  /** Whatever the interleaving, every job numbered at most `written` is in an accepted batch. */
  lemma WrittenJobsWereAccepted<T>(steps: seq<Step<T>>, seqno: nat)
    requires 0 < seqno <= Run(steps).queue.written
    ensures seqno <= |Run(steps).log| && Run(steps).log[seqno - 1].seqno == seqno
    ensures Run(steps).log[seqno - 1] in Run(steps).accepted
  {
    RunKeepsInv(steps);
    var s := Run(steps);
    assert s.accepted[seqno - 1] == s.log[seqno - 1];
  }

  /** The runner never sleeps on work: parked, healthy and unwoken means that every job is stored and marked. */
  lemma NeverParkedOnWork<T>(steps: seq<Step<T>>)
    requires Run(steps).runner.Parked? && !Run(steps).queue.wake && Run(steps).queue.err.None?
    ensures Run(steps).queue.jobs == [] && Run(steps).accepted == Run(steps).log
    ensures Run(steps).queue.written == |Run(steps).log|
  {
    RunKeepsInv(steps);
    var s := Run(steps);
    assert s.accepted + [] + [] == s.accepted;
  }

  /** What a refusal leaves of a state: producers may still append until the error is recorded, nothing else moves. */
  ghost predicate Halted<T>(s: Engine<T>, r: Engine<T>) {
    && Broken(r) && !r.runner.Batching? && !r.runner.Stored?
    && r.queue.written == s.queue.written && r.accepted == s.accepted
    && s.queue.jobs <= r.queue.jobs && s.log <= r.log
  }

  lemma StepKeepsHalted<T>(s: Engine<T>, r: Engine<T>, step: Step<T>)
    requires Halted(s, r)
    ensures Halted(s, Next(r, step))
    ensures r.queue.err.Some? ==>
              Next(r, step).queue.err.Some? && Next(r, step).queue.jobs == r.queue.jobs && Next(r, step).log == r.log
  {
  }

  lemma {:induction false} HaltedStays<T>(s: Engine<T>, steps: seq<Step<T>>, more: seq<Step<T>>)
    requires Halted(s, Run(steps))
    ensures var (r, q) := (Run(steps + more), Run(steps));
            && Halted(s, r)
            && (q.queue.err.Some? ==> r.queue.err.Some? && r.queue.jobs == q.queue.jobs && r.log == q.log)
    decreases |more|
  {
    if more == [] {
      assert steps + more == steps;
    } else {
      HaltedStays(s, steps, more[..|more| - 1]);
      StepKeepsHalted(s, Run(steps + more[..|more| - 1]), more[|more| - 1]);
      assert (steps + more)[..|steps + more| - 1] == steps + more[..|more| - 1];
    }
  }

  /**
   From the refusal of a batch on, at every later moment: nothing more is accepted, marked or taken, a checkpoint
   that waits for a job of that batch is never told it was written, and once the refusal is recorded it is told of
   the failure at once.
  */
  lemma FailureIsFinal<T>(steps: seq<Step<T>>, more: seq<Step<T>>, i: nat)
    requires Run(steps).runner.Batching? && i < |Run(steps).runner.batch|
    ensures var (s, r) := (Run(steps), Run(steps + [Save(false)] + more));
            && Halted(s, r) && s.runner.batch[i] !in r.accepted
            && Wait(r.queue, s.runner.batch[i].seqno) != Reached
            && (r.queue.err.Some? ==> Wait(r.queue, s.runner.batch[i].seqno) == Failed)
            && (!r.runner.Rejected? ==> r.queue.err.Some? && (!r.runner.Stopped? ==> r.queue.err == Some(StoreFailed)))
  {
    var s := Run(steps);
    RunKeepsInv(steps + [Save(false)] + more);
    RunKeepsInv(steps);
    assert (steps + [Save(false)])[..|steps|] == steps;
    HaltedStays(s, steps + [Save(false)], more);
    var at := |s.accepted| + i;
    assert (s.accepted + s.runner.batch)[at] == s.log[at];
    forall k | 0 <= k < |s.accepted|
      ensures s.accepted[k] != s.runner.batch[i]
    {
      assert s.accepted[k] == s.log[k];
    }
  }

  /** Once the error is recorded the queue itself stands still: no job is numbered, appended or taken. */
  lemma RecordedIsFinal<T>(steps: seq<Step<T>>, more: seq<Step<T>>)
    requires Run(steps).queue.err.Some?
    ensures var (s, r) := (Run(steps), Run(steps + more));
            && Halted(s, r) && r.queue.err.Some? && r.queue.jobs == s.queue.jobs && r.log == s.log
  {
    RunKeepsInv(steps);
    HaltedStays(Run(steps), steps, more);
  }

  /**
   A checkpoint waiting for an issued `target` is released exactly when every job up to it is stored and its batch
   marked.  Until then it is told of a recorded error at once, of a shutdown without one, and blocks only while the
   runner is there and no error is recorded.
  */
  lemma WaitIsSoundAndEnds<T>(steps: seq<Step<T>>, target: nat)
    requires target <= Run(steps).queue.next
    ensures Run(steps).queue.next == |Run(steps).log|
    ensures Wait(Run(steps).queue, target) == Reached ==> Run(steps).log[..target] <= Run(steps).accepted
    ensures var s := Run(steps);
            var marked := target + |Unmarked(s)| <= |s.accepted| || target == 0;
            && (Wait(s.queue, target) == Reached <==> marked)
            && (Wait(s.queue, target) == Failed <==> !marked && s.queue.err.Some?)
            && (Wait(s.queue, target) == Closed <==> !marked && s.queue.err.None? && s.runner.Stopped?)
            && (Wait(s.queue, target) == Blocked <==> !marked && s.queue.err.None? && !s.runner.Stopped?)
  {
    RunKeepsInv(steps);
    var s := Run(steps);
    if Wait(s.queue, target) == Reached {
      assert s.log[..target] == s.accepted[..target];
    }
  }

  /** A job is numbered and queued as the last one exactly while no error is recorded and the runner is there. */
  lemma ProduceExactly<T>(steps: seq<Step<T>>, value: T, bytes: nat)
    ensures var (s, r) := (Run(steps), Run(steps + [Produce(value, bytes)]));
            if s.queue.err.None? && !s.runner.Stopped? then
              var job := Job(|s.log| + 1, value, bytes);
              r.log == s.log + [job] && r.queue.jobs == s.queue.jobs + [job] && r.queue.wake
            else r == s
  {
    RunKeepsInv(steps);
    assert (steps + [Produce(value, bytes)])[..|steps|] == steps;
  }

  lemma RunNext<T>(steps: seq<Step<T>>, step: Step<T>)
    ensures Run(steps + [step]) == Next(Run(steps), step)
  {
    assert (steps + [step])[..|steps|] == steps;
  }

  /** A runner that comes round to a healthy queue takes its first job, and the store's answer decides its fate. */
  lemma FirstIsWritten<T>(steps: seq<Step<T>>, ok: bool)
    requires Run(steps).runner.Polling? && Run(steps).queue.err.None? && Run(steps).queue.jobs != []
    ensures var (s, r) := (Run(steps), Run(steps + [PopFirst] + [Save(ok)] + [Settle]));
            var seqno := s.queue.jobs[0].seqno;
            && r.queue.jobs == s.queue.jobs[1..]
            && Wait(r.queue, seqno) == if ok then Reached else Failed
  {
    RunKeepsInv(steps);
    var s := Run(steps);
    RunNext(steps, PopFirst);
    RunNext(steps + [PopFirst], Save(ok));
    RunNext(steps + [PopFirst] + [Save(ok)], Settle);
    assert (s.accepted + [] + s.queue.jobs)[|s.accepted|] == s.queue.jobs[0] == s.log[|s.accepted|];
  }

  /** Past the end of its context the runner goes on until the queue is empty. */
  ghost predicate Draining<T>(s: Engine<T>, r: Engine<T>) {
    && |s.log| <= |r.log|
    && match r.runner
       case Polling(draining) => draining
       case Batching(_, draining) => draining
       case Stored(_, draining) => draining
       case Rejected(draining) => draining
       case Parked => false
       case Closing => r.queue.err.Some? || |s.log| <= r.queue.written
       case Stopped => true
  }

  lemma StepDrains<T>(s: Engine<T>, r: Engine<T>, step: Step<T>)
    requires Inv(r) && Draining(s, r)
    ensures Draining(s, Next(r, step))
  {
    if Enabled(r, step) && step.PopFirst? && !CanPop(r.queue) && r.queue.err.None? {
      assert r.accepted + [] + [] == r.accepted;
    }
  }

  /** Every job queued when the run context ends is written before the runner closes, unless a batch is refused. */
  lemma {:induction false} DrainsBeforeClosing<T>(steps: seq<Step<T>>, more: seq<Step<T>>)
    requires Run(steps).runner.Parked?
    ensures Draining(Run(steps), Run(steps + [ContextDone] + more))
    decreases |more|
  {
    if more == [] {
      assert steps + [ContextDone] + more == steps + [ContextDone];
      RunNext(steps, ContextDone);
    } else {
      var init := more[..|more| - 1];
      DrainsBeforeClosing(steps, init);
      RunKeepsInv(steps + [ContextDone] + init);
      StepDrains(Run(steps), Run(steps + [ContextDone] + init), more[|more| - 1]);
      assert steps + [ContextDone] + more == steps + [ContextDone] + init + [more[|more| - 1]];
      RunNext(steps + [ContextDone] + init, more[|more| - 1]);
    }
  }

  /** A shutdown leaves every wait answered: reached, or failed if there is an error, the context's own above all. */
  lemma ShutdownExactly<T>(steps: seq<Step<T>>, err: Option<Failure>, target: nat)
    requires Run(steps).runner.Closing?
    ensures var (s, r) := (Run(steps), Run(steps + [Shutdown(err)]));
            && r.runner.Stopped? && r.queue.err == (if err.Some? then err else s.queue.err)
            && Wait(r.queue, target) == (if Wait(s.queue, target) == Reached then Reached
                                         else if err.Some? || s.queue.err.Some? then Failed else Closed)
  {
    RunKeepsInv(steps);
    RunNext(steps, Shutdown(err));
  }

  /** What a wait has once reached it reaches at every later moment: marking never moves back. */
  lemma {:induction false} ReachedStays<T>(steps: seq<Step<T>>, more: seq<Step<T>>, target: nat)
    requires Wait(Run(steps).queue, target) == Reached
    ensures Wait(Run(steps + more).queue, target) == Reached
    decreases |more|
  {
    if more == [] {
      assert steps + more == steps;
    } else {
      ReachedStays(steps, more[..|more| - 1], target);
      assert (steps + more)[..|steps + more| - 1] == steps + more[..|more| - 1];
    }
  }

  /** Once the runner has stopped nothing changes any more, and no job is accepted for writing. */
  lemma {:induction false} StoppedIsFinal<T>(steps: seq<Step<T>>, more: seq<Step<T>>)
    requires Run(steps).runner.Stopped?
    ensures Run(steps + more) == Run(steps) && !Accepting(Run(steps).queue)
    decreases |more|
  {
    RunKeepsInv(steps);
    if more == [] {
      assert steps + more == steps;
    } else {
      StoppedIsFinal(steps, more[..|more| - 1]);
      assert (steps + more)[..|steps + more| - 1] == steps + more[..|more| - 1];
    }
  }
}
