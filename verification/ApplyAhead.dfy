/**
 * The shard apply-ahead stage (service/shard_apply_ahead.go): one goroutine that resolves the
 * shard targets of applied masters before the commit stage reaches them.  Main result: whatever
 * the interleaving of scheduling, eviction, failed resolution and commit, a master is taken up
 * only when every master between the committed head and it has all its targets resolved.
 */
module ApplyAhead {
  import opened Common

  const PENDING_LIMIT: nat := 4

  type Target = nat

  type Pending = map<nat, set<Target>>

  // The pending table.

  /** What a schedule leaves: of the masters past the head, the lowest seqnos up to the limit. */
  ghost predicate Lowest(all: Pending, kept: Pending) {
    && kept.Keys <= all.Keys && (forall n :: n in kept ==> kept[n] == all[n])
    && |kept| == (if |all| <= PENDING_LIMIT then |all| else PENDING_LIMIT)
    && forall k: nat, d: nat :: k in kept && d in all.Keys - kept.Keys ==> k < d
  }

  function Past(pending: Pending, committed: nat): (r: Pending)
    ensures forall n: nat :: n in r <==> n in pending && committed < n
    ensures forall n :: n in r ==> r[n] == pending[n]
  {
    map n | n in pending && n > committed :: pending[n]
  }

  predicate Contiguous(seqno: nat, lastAhead: nat, committed: nat) {
    (lastAhead != 0 && seqno == lastAhead + 1) || (committed != 0 && seqno == committed + 1)
  }

  /** The master taken up: the one after the last resolved, else the one after the head. */
  function Choice(pending: Pending, lastAhead: nat, committed: nat): (r: Option<nat>) {
    var left := Past(pending, committed);
    if Contiguous(lastAhead + 1, lastAhead, committed) && lastAhead + 1 in left then Some(lastAhead + 1)
    else if Contiguous(committed + 1, lastAhead, committed) && committed + 1 in left then Some(committed + 1)
    else None
  }

  method PrunePending(pending: Pending, committed: nat) returns (r: Pending)
    ensures r == Past(pending, committed)
  {
    r := pending;
    var rest := pending.Keys;
    while rest != {}
      invariant rest <= pending.Keys
      invariant forall n :: n in r <==> n in pending && (n in rest || n > committed)
      invariant forall n :: n in r ==> r[n] == pending[n]
      decreases |rest|
    {
      var n :| n in rest;
      if n <= committed {
        r := r - {n};
      }
      rest := rest - {n};
    }
    assert r == Past(pending, committed);
  }

  method Highest(pending: Pending) returns (highest: nat)
    requires pending != map[] && 0 !in pending
    ensures highest in pending && forall n :: n in pending ==> n <= highest
  {
    highest := 0;
    var rest := pending.Keys;
    while rest != {}
      invariant rest <= pending.Keys
      invariant forall n: nat :: n in pending && n !in rest ==> n <= highest
      invariant if highest == 0 then rest == pending.Keys else highest in pending
      decreases |rest|
    {
      var n :| n in rest;
      if n > highest {
        highest := n;
      }
      rest := rest - {n};
    }
  }

  lemma DropHighest(all: Pending, kept: Pending, highest: nat)
    requires kept.Keys <= all.Keys && (forall n :: n in kept ==> kept[n] == all[n])
    requires forall k: nat, d: nat :: k in kept && d in all.Keys - kept.Keys ==> k < d
    requires highest in kept && forall n :: n in kept ==> n <= highest
    ensures var left := kept - {highest};
            && left.Keys <= all.Keys && (forall n :: n in left ==> left[n] == all[n])
            && (forall k: nat, d: nat :: k in left && d in all.Keys - left.Keys ==> k < d)
            && |left| == |kept| - 1
  {
    var left := kept - {highest};
    assert left.Keys == kept.Keys - {highest};
    forall k: nat, d: nat | k in left && d in all.Keys - left.Keys
      ensures k < d
    {
      assert k in kept && (d == highest || d in all.Keys - kept.Keys);
    }
  }

  method KeepLowest(all: Pending) returns (kept: Pending)
    requires 0 !in all
    ensures Lowest(all, kept)
  {
    kept := all;
    while |kept| > PENDING_LIMIT
      invariant kept.Keys <= all.Keys && (forall n :: n in kept ==> kept[n] == all[n])
      invariant forall k: nat, d: nat :: k in kept && d in all.Keys - kept.Keys ==> k < d
      invariant |kept| == |all| || PENDING_LIMIT <= |kept| < |all|
      decreases |kept|
    {
      var highest := Highest(kept);
      DropHighest(all, kept, highest);
      kept := kept - {highest};
    }
    if |kept| == |all| {
      SameSize(kept.Keys, all.Keys);
    }
  }

  lemma {:induction false} SameSize(a: set<nat>, b: set<nat>)
    requires a <= b && |a| == |b|
    ensures a == b
    decreases |a|
  {
    if n :| n in a {
      SameSize(a - {n}, b - {n});
      assert a == (a - {n}) + {n} && b == (b - {n}) + {n};
    }
  }

  class ShardApplyAhead {
    var pending: Pending

    constructor ()
      ensures pending == map[]
    {
      pending := map[];
    }

    /** Files an applied master, given the committed head as read before the lock. */
    method Schedule(seqno: nat, targets: set<Target>, committed: nat)
      modifies this
      ensures ScheduledTo(old(pending), seqno, targets, committed, pending)
    {
      if targets == {} || seqno <= committed {
        return;
      }
      var left := PrunePending(pending, committed);
      pending := KeepLowest(left[seqno := targets]);
    }

    /** Takes the master that may be resolved next, if it is pending. */
    method Take(lastAhead: nat, committed: nat) returns (r: Option<(nat, set<Target>)>)
      modifies this
      ensures TakenTo(old(pending), lastAhead, committed, pending, r)
    {
      pending := PrunePending(pending, committed);
      r := None;
      var choice :=
        if Contiguous(lastAhead + 1, lastAhead, committed) && lastAhead + 1 in pending then Some(lastAhead + 1)
        else if Contiguous(committed + 1, lastAhead, committed) && committed + 1 in pending then Some(committed + 1)
        else None;
      if choice.Some? {
        r := Some((choice.value, pending[choice.value]));
        pending := pending - {choice.value};
      }
    }
  }

  ghost predicate ScheduledTo(before: Pending, seqno: nat, targets: set<Target>, committed: nat, after: Pending) {
    if targets == {} || seqno <= committed then after == before
    else Lowest(Past(before, committed)[seqno := targets], after)
  }

  ghost predicate TakenTo(before: Pending, lastAhead: nat, committed: nat, after: Pending,
                          r: Option<(nat, set<Target>)>)
  {
    match Choice(before, lastAhead, committed)
    case None => r == None && after == Past(before, committed)
    case Some(n) => r == Some((n, Past(before, committed)[n])) && after == Past(before, committed) - {n}
  }

  // The stage, the master apply loop and the commit stage together.

  datatype Stage = Waiting | Resolving(master: nat, targets: set<Target>, left: set<Target>)

  datatype State = State(
    pending: Pending,
    committed: nat,
    lastAhead: nat,
    stage: Stage,
    resolved: set<Target>,
    taken: seq<Taken>)

  /** A master taken up, with the head and the targets resolved at that moment. */
  datatype Taken = Taken(master: nat, committed: nat, resolved: set<Target>)

  /**
   * A head is read before the lock, so the value used may be an older one; any value up to the current head is
   * allowed.  chain gives each master's targets.
   */
  datatype Step =
    | Schedule(master: nat, seen: nat, after: Pending)
    | Take(seen: nat, after: Pending, r: Option<(nat, set<Target>)>)
    | Resolve(target: Target, ok: bool)
    | Finish
    | Commit(master: nat)

  type Chain = nat -> set<Target>

  ghost predicate Enabled(chain: Chain, s: State, step: Step) {
    match step
    case Schedule(n, seen, after) => seen <= s.committed && ScheduledTo(s.pending, n, chain(n), seen, after)
    case Take(seen, after, r) => s.stage.Waiting? && seen <= s.committed
        && TakenTo(s.pending, s.lastAhead, seen, after, r)
    case Resolve(t, _) => s.stage.Resolving? && t in s.stage.left
    case Finish => s.stage.Resolving?
    case Commit(n) => s.committed == 0 || n == s.committed + 1
  }

  /** A stage that finishes with targets unresolved starts over from the head; a commit has resolved its own targets. */
  ghost function Next(chain: Chain, s: State, step: Step): (r: State) {
    if !Enabled(chain, s, step) then s
    else
      match step
      case Schedule(_, _, after) => s.(pending := after)
      case Take(_, after, r) =>
        if r.None? then s.(pending := after)
        else s.(pending := after, stage := Resolving(r.value.0, r.value.1, r.value.1),
             taken := s.taken + [Taken(r.value.0, s.committed, s.resolved)])
      case Resolve(t, ok) =>
        if ok then s.(stage := s.stage.(left := s.stage.left - {t}), resolved := s.resolved + {t}) else s
      case Finish => s.(lastAhead := if s.stage.left == {} then s.stage.master else 0, stage := Waiting)
      case Commit(n) => s.(committed := n, resolved := s.resolved + chain(n))
  }

  function Initial(): (s: State) {
    State(map[], 0, 0, Waiting, {}, [])
  }

  ghost function Run(chain: Chain, steps: seq<Step>): (s: State) {
    if steps == [] then Initial() else Next(chain, Run(chain, steps[..|steps| - 1]), steps[|steps| - 1])
  }

  /** Every master from after the head up to, not including, n is resolved. */
  ghost predicate ResolvedBelow(chain: Chain, committed: nat, n: nat, resolved: set<Target>) {
    forall m :: committed < m < n ==> chain(m) <= resolved
  }

  ghost predicate TakenOk(chain: Chain, t: Taken) {
    ResolvedBelow(chain, t.committed, t.master, t.resolved)
  }

  ghost predicate Inv(chain: Chain, s: State) {
    && (forall n :: n in s.pending ==> s.pending[n] == chain(n))
    && (s.lastAhead != 0 ==> ResolvedBelow(chain, s.committed, s.lastAhead + 1, s.resolved))
    && (s.stage.Resolving? ==> StageOk(chain, s.committed, s.resolved, s.stage))
    && forall i :: 0 <= i < |s.taken| ==> TakenOk(chain, s.taken[i])
  }

  ghost predicate StageOk(chain: Chain, committed: nat, resolved: set<Target>, stage: Stage)
    requires stage.Resolving?
  {
    && stage.targets == chain(stage.master)
    && stage.left <= stage.targets <= resolved + stage.left
    && ResolvedBelow(chain, committed, stage.master, resolved)
  }

  lemma TakeIsContiguous(chain: Chain, s: State, seen: nat, after: Pending, r: Option<(nat, set<Target>)>)
    requires Inv(chain, s) && seen <= s.committed && TakenTo(s.pending, s.lastAhead, seen, after, r) && r.Some?
    ensures r.value.1 == chain(r.value.0) && ResolvedBelow(chain, s.committed, r.value.0, s.resolved)
    ensures forall n :: n in after ==> n in s.pending && after[n] == s.pending[n]
  {
  }

  lemma PendingStays(chain: Chain, s: State, step: Step)
    requires Inv(chain, s) && Enabled(chain, s, step) && (step.Schedule? || step.Take?)
    ensures forall n :: n in step.after ==> step.after[n] == chain(n)
  {
  }

  lemma ResolveKeepsStage(chain: Chain, s: State, t: Target)
    requires Inv(chain, s) && s.stage.Resolving? && t in s.stage.left
    ensures StageOk(chain, s.committed, s.resolved + {t}, s.stage.(left := s.stage.left - {t}))
  {
  }

  lemma StepKeepsInv(chain: Chain, s: State, step: Step)
    requires Inv(chain, s)
    ensures Inv(chain, Next(chain, s, step))
  {
    if Enabled(chain, s, step) {
      match step
      case Schedule(_, _, _) => PendingStays(chain, s, step);
      case Take(seen, after, r) =>
        PendingStays(chain, s, step);
        if r.Some? {
          TakeIsContiguous(chain, s, seen, after, r);
        }
      case Resolve(t, _) => ResolveKeepsStage(chain, s, t);
      case Finish =>
      case Commit(_) =>
    }
  }

  lemma {:induction false} RunKeepsInv(chain: Chain, steps: seq<Step>)
    ensures Inv(chain, Run(chain, steps))
  {
    if steps != [] {
      RunKeepsInv(chain, steps[..|steps| - 1]);
      StepKeepsInv(chain, Run(chain, steps[..|steps| - 1]), steps[|steps| - 1]);
    }
  }

  /** No master is taken up over a hole: those between the head and it had all their targets resolved by then. */
  lemma NeverOverAHole(chain: Chain, steps: seq<Step>, i: nat, m: nat)
    requires i < |Run(chain, steps).taken|
    ensures var t := Run(chain, steps).taken[i]; t.committed < m < t.master ==> chain(m) <= t.resolved
  {
    RunKeepsInv(chain, steps);
    assert TakenOk(chain, Run(chain, steps).taken[i]);
  }

  /**
   What is taken, exactly: the master after the last resolved one if it is pending past the head, else the one after
   the head if that is pending, else nothing; with nothing resolved yet and no head nothing is.
  */
  lemma TakeExactly(before: Pending, lastAhead: nat, committed: nat, after: Pending, r: Option<(nat, set<Target>)>)
    requires TakenTo(before, lastAhead, committed, after, r)
    ensures r == if lastAhead != 0 && committed <= lastAhead && lastAhead + 1 in before
                 then Some((lastAhead + 1, before[lastAhead + 1]))
                 else if committed != 0 && committed + 1 in before then Some((committed + 1, before[committed + 1]))
                 else None
    ensures forall n: nat :: n in after <==> n in before && n > committed && !(r.Some? && r.value.0 == n)
  {
  }

  /** A stage that resolved every target goes on to the next master, if that is pending past the head it sees. */
  lemma GoesOnToNext(chain: Chain, s: State, seen: nat, after: Pending, r: Option<(nat, set<Target>)>)
    requires s.stage.Resolving? && s.stage.left == {} && s.stage.master != 0 && s.stage.master >= seen
    requires s.stage.master + 1 in s.pending && TakenTo(s.pending, s.stage.master, seen, after, r)
    ensures var f := Next(chain, s, Finish);
            && f.stage.Waiting? && f.lastAhead == s.stage.master && f.pending == s.pending
            && r == Some((s.stage.master + 1, s.pending[s.stage.master + 1]))
            && (seen <= s.committed ==>
                Next(chain, f, Take(seen, after, r)).stage == Resolving(r.value.0, r.value.1, r.value.1))
  {
    TakeExactly(s.pending, s.stage.master, seen, after, r);
  }

  /** A stage that leaves a target unresolved starts over from the head. */
  lemma StartsOver(chain: Chain, s: State)
    requires s.stage.Resolving? && s.stage.left != {}
    ensures Next(chain, s, Finish).lastAhead == 0 && Next(chain, s, Finish).stage.Waiting?
  {
  }

  /** A scheduled master past the head is pending unless as many lower ones are as the limit allows. */
  lemma ScheduledIsPending(before: Pending, seqno: nat, targets: set<Target>, committed: nat, after: Pending)
    requires ScheduledTo(before, seqno, targets, committed, after) && targets != {} && seqno > committed
    ensures seqno in after ==> after[seqno] == targets
    ensures seqno !in after ==> |after| == 4 && forall n :: n in after ==> n < seqno
  {
    var all: Pending := Past(before, committed)[seqno := targets];
    assert seqno in all;
    if seqno !in after {
      if |all| <= PENDING_LIMIT {
        SameSize(after.Keys, all.Keys);
      }
      assert seqno in all.Keys - after.Keys;
    }
  }

  /** A target that resolves is resolved for good and no longer left; one that fails stays left. */
  lemma ResolvesExactly(chain: Chain, s: State, t: Target, ok: bool)
    requires s.stage.Resolving? && t in s.stage.left
    ensures var r := Next(chain, s, Resolve(t, ok));
            if ok then t in r.resolved && r.stage == s.stage.(left := s.stage.left - {t}) else r == s
  {
  }
}
