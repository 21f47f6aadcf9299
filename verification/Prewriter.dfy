/**
 The queue engine behind the state-cell and artifact prewriters
 (service/prewriter.go) and the state-cell batching policy on top of it
 (service/state_cell_prewriter.go).

 `Queue` is the value the mutex protects; every locked section of the source is one
 function on it. `Prewriter` is the object itself, with its job slice and head, proved
 to compute those functions. The module PrewriteEngine adds the runner goroutine.
*/
module PrewriteQueue {
  import opened Common

  const QUEUE_JOBS_LIMIT := 4096

  datatype Job<T> = Job(seqno: nat, value: T, bytes: nat)

  datatype Failure = StoreFailed | ContextExpired

  datatype Config = Config(maxQueueBytes: nat, maxBatchJobs: nat, maxBatchBytes: nat)

  datatype Queue<T> = Queue(jobs: seq<Job<T>>, next: nat, written: nat, err: Option<Failure>, closed: bool, wake: bool)

  function Bytes<T>(jobs: seq<Job<T>>): (total: nat) {
    Sum(seq(|jobs|, i requires 0 <= i < |jobs| => jobs[i].bytes))
  }

  predicate Accepting<T>(q: Queue<T>) {
    q.err.None? && !q.closed
  }

  function Enqueue<T>(q: Queue<T>, value: T, bytes: nat): (r: Queue<T>) {
    if Accepting(q)
    then q.(jobs := q.jobs + [Job(q.next + 1, value, bytes)], next := q.next + 1, wake := true)
    else q
  }

  predicate CanPop<T>(q: Queue<T>) {
    q.err.None? && q.jobs != []
  }

  function Pop<T>(q: Queue<T>): (r: Queue<T>) {
    if CanPop(q) then q.(jobs := q.jobs[1..]) else q
  }

  function MarkWritten<T>(q: Queue<T>, seqno: nat): (r: Queue<T>) {
    if seqno > q.written then q.(written := seqno) else q
  }

  function Fail<T>(q: Queue<T>, err: Failure): (r: Queue<T>) {
    if q.err.None? then q.(err := Some(err)) else q
  }

  /** `err` is absent when the run context was merely cancelled. */
  function Close<T>(q: Queue<T>, err: Option<Failure>): (r: Queue<T>) {
    if q.closed then q else q.(closed := true, err := if err.Some? then err else q.err)
  }

  datatype WaitResult = Reached | Failed | Closed | Blocked

  /** One pass of the `wait` loop: what a checkpoint that needs `target` written sees. */
  function Wait<T>(q: Queue<T>, target: nat): (r: WaitResult) {
    if target == 0 || q.written >= target then Reached
    else if q.err.Some? then Failed
    else if q.closed then Closed
    else Blocked
  }

  lemma BytesFirst<T>(jobs: seq<Job<T>>)
    requires jobs != []
    ensures Bytes(jobs) == jobs[0].bytes + Bytes(jobs[1..])
  {
    var all := seq(|jobs|, i requires 0 <= i < |jobs| => jobs[i].bytes);
    var rest := jobs[1..];
    SumFirst(all);
    assert all[1..] == seq(|rest|, i requires 0 <= i < |rest| => rest[i].bytes);
  }

  lemma BytesAppend<T>(a: seq<Job<T>>, b: seq<Job<T>>)
    ensures Bytes(a + b) == Bytes(a) + Bytes(b)
  {
    var sa := seq(|a|, i requires 0 <= i < |a| => a[i].bytes);
    var sb := seq(|b|, i requires 0 <= i < |b| => b[i].bytes);
    SumAppend(sa, sb);
    assert sa + sb == seq(|a + b|, i requires 0 <= i < |a + b| => (a + b)[i].bytes);
  }

  /** The object: a job slice consumed from `head`, compacted in place. */
  class Prewriter<T(0)> {
    const config: Config
    var jobs: seq<Job<T>>
    var head: nat
    var bytes: nat
    var next: nat
    var written: nat
    var err: Option<Failure>
    var closed: bool
    var wake: bool

    ghost predicate Valid()
      reads this
    {
      && head <= |jobs|
      && (jobs != [] ==> head < |jobs|)
      && bytes == Bytes(jobs[head..])
    }

    ghost function Contents(): Queue<T>
      reads this
      requires Valid()
    {
      Queue(jobs[head..], next, written, err, closed, wake)
    }

    constructor (config: Config)
      ensures Valid() && this.config == config
      ensures Contents() == Queue([], 0, 0, None, false, false)
    {
      this.config := config;
      jobs, head, bytes, next, written := [], 0, 0, 0, 0;
      err, closed, wake := None, false, false;
    }

    /** Returns the sequence number, or nothing once the prewriter failed or closed. */
    method EnqueueDetached(value: T, size: nat) returns (seqno: Option<nat>)
      requires Valid()
      modifies this
      ensures Valid() && Contents() == Enqueue(old(Contents()), value, size)
      ensures seqno == if Accepting(old(Contents())) then Some(old(next) + 1) else None
    {
      if err.Some? || closed {
        return None;
      }
      next := next + 1;
      bytes := bytes + size;
      var job := Job(next, value, size);
      BytesAppend(jobs[head..], [job]);
      assert Bytes([job]) == size by { BytesFirst([job]); }
      assert (jobs + [job])[head..] == jobs[head..] + [job];
      jobs := jobs + [job];
      wake := true;
      return Some(next);
    }

    method PopJob() returns (job: Option<Job<T>>)
      requires Valid()
      modifies this
      ensures Valid() && Contents() == Pop(old(Contents()))
      ensures job == if CanPop(old(Contents())) then Some(old(Contents()).jobs[0]) else None
    {
      if err.Some? || |jobs| == 0 {
        return None;
      }
      BytesFirst(jobs[head..]);
      assert jobs[head..][1..] == jobs[head + 1..];
      job := Some(jobs[head]);
      head := head + 1;
      bytes := bytes - job.value.bytes;
      if head == |jobs| {
        jobs, head := [], 0;
      } else if head > 1024 && head * 2 >= |jobs| {
        jobs, head := jobs[head..], 0;
        assert jobs[0..] == jobs;
      }
    }

    method MarkWrittenUpTo(seqno: nat)
      requires Valid()
      modifies this`written
      ensures Valid() && Contents() == MarkWritten(old(Contents()), seqno)
    {
      if seqno > written {
        written := seqno;
      }
    }

    method RecordFailure(failure: Failure)
      requires Valid()
      modifies this`err
      ensures Valid() && Contents() == Fail(old(Contents()), failure)
    {
      if err.None? {
        err := Some(failure);
      }
    }

    method QueueWithinLimits() returns (ok: bool)
      requires Valid()
      ensures var (count, size) := (|Contents().jobs|, Bytes(Contents().jobs));
              ok <==> count <= 1 || (count < 4096 && (config.maxQueueBytes == 0 || size <= config.maxQueueBytes))
    {
      var queued := |jobs| - head;
      if queued <= 1 {
        return true;
      }
      if queued >= QUEUE_JOBS_LIMIT {
        return false;
      }
      return config.maxQueueBytes == 0 || bytes <= config.maxQueueBytes;
    }

    method BatchCanAdd(count: nat, size: nat) returns (ok: bool)
      ensures ok == BatchOpen(config, count, size)
    {
      return count < config.maxBatchJobs && (config.maxBatchBytes == 0 || size < config.maxBatchBytes);
    }

    /** The popping half of `processNext`: a maximal batch off the front of the queue. */
    method TakeBatch() returns (batch: seq<Job<T>>)
      requires Valid()
      modifies this
      ensures Valid() && Contents() == old(Contents()).(jobs := Contents().jobs)
      ensures old(Contents()).jobs == batch + Contents().jobs
      ensures batch == [] <==> !CanPop(old(Contents()))
      ensures BatchPermitted(config, batch)
      ensures batch != [] ==>
                || Contents().jobs == [] || |batch| >= config.maxBatchJobs
                || 0 < config.maxBatchBytes <= Bytes(batch)
    {
      ghost var before := Contents();
      batch := [];
      var size: nat := 0;
      var open := true;
      while open
        invariant Valid() && Taking(config, before, Contents(), batch, size, open)
        decreases open, |Contents().jobs|
      {
        batch, size, open := TakeOne(before, batch, size);
      }
    }

    method TakeOne(ghost before: Queue<T>, batch: seq<Job<T>>, size: nat) returns (b: seq<Job<T>>, n: nat, open: bool)
      requires Valid() && Taking(config, before, Contents(), batch, size, true)
      modifies this
      ensures Valid() && Taking(config, before, Contents(), b, n, open)
      ensures open ==> |Contents().jobs| < |old(Contents()).jobs|
    {
      ghost var rest := Contents();
      var job := PopJob();
      if job.None? {
        return batch, size, false;
      }
      TakingGrows(config, before, rest, batch, size);
      b, n := batch + [job.value], size + job.value.bytes;
      open := BatchCanAdd(|b|, n);
    }

    /**
     One `processNext` of the runner when no producer intervenes: it takes a prefix of the
     queue as one batch and offers it to the store, whose answer is `stored`.
    */
    method ProcessNext(stored: bool) returns (progressed: bool, batch: seq<Job<T>>)
      requires Valid()
      modifies this
      ensures Valid()
      ensures progressed == CanPop(old(Contents())) == (batch != [])
      ensures old(Contents()).jobs == batch + Contents().jobs && BatchPermitted(config, batch)
      ensures progressed ==>
                || Contents().jobs == [] || |batch| >= config.maxBatchJobs
                || 0 < config.maxBatchBytes <= Bytes(batch)
      ensures !progressed ==> Contents() == old(Contents())
      ensures progressed ==>
                var rest := old(Contents()).(jobs := Contents().jobs);
                Contents() == if stored then MarkWritten(rest, batch[|batch| - 1].seqno) else Fail(rest, StoreFailed)
    {
      batch := TakeBatch();
      progressed := batch != [];
      if progressed {
        if stored {
          MarkWrittenUpTo(batch[|batch| - 1].seqno);
        } else {
          RecordFailure(StoreFailed);
        }
      }
    }
  }

  predicate BatchOpen(config: Config, count: nat, size: nat) {
    count < config.maxBatchJobs && (config.maxBatchBytes == 0 || size < config.maxBatchBytes)
  }

  /** Every proper non-empty prefix of a batch still had room, so limits overrun by one job at most. */
  ghost predicate BatchPermitted<T>(config: Config, batch: seq<Job<T>>) {
    forall n {:trigger batch[..n]} :: 0 < n < |batch| ==>
      n < config.maxBatchJobs && (config.maxBatchBytes == 0 || Bytes(batch[..n]) < config.maxBatchBytes)
  }

  /** How far a batch has been taken off the queue, and whether it may still grow. */
  ghost predicate Taking<T>(config: Config, before: Queue<T>, rest: Queue<T>, batch: seq<Job<T>>, size: nat,
                            open: bool)
  {
    && rest == before.(jobs := rest.jobs)
    && before.jobs == batch + rest.jobs
    && size == Bytes(batch) && BatchPermitted(config, batch)
    && (open ==> batch == [] || BatchOpen(config, |batch|, size))
    && (!open ==> !CanPop(rest) || !BatchOpen(config, |batch|, size))
    && (!open && batch == [] ==> !CanPop(before))
    && (batch != [] ==> CanPop(before))
  }

  lemma TakingGrows<T>(config: Config, before: Queue<T>, rest: Queue<T>, batch: seq<Job<T>>, size: nat)
    requires Taking(config, before, rest, batch, size, true) && CanPop(rest)
    ensures var (job, open) := (rest.jobs[0], BatchOpen(config, |batch| + 1, size + rest.jobs[0].bytes));
            Taking(config, before, Pop(rest), batch + [job], size + job.bytes, open)
  {
    var job := rest.jobs[0];
    assert before.jobs == (batch + [job]) + Pop(rest).jobs;
    BatchGrows(config, batch, job);
  }

  lemma BatchGrows<T>(config: Config, batch: seq<Job<T>>, job: Job<T>)
    requires BatchPermitted(config, batch)
    requires batch == [] || BatchOpen(config, |batch|, Bytes(batch))
    ensures BatchPermitted(config, batch + [job])
    ensures Bytes(batch + [job]) == Bytes(batch) + job.bytes
  {
    var grown := batch + [job];
    BytesAppend(batch, [job]);
    BytesFirst([job]);
    forall n | 0 < n < |grown|
      ensures BatchOpen(config, n, Bytes(grown[..n]))
    {
      assert grown[..n] == batch[..n];
      if n == |batch| {
        assert batch[..n] == batch;
      }
    }
  }
}
