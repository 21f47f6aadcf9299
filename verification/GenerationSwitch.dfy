/**
 * Checkpoint writers against the cell-generation switch (service/cell_generation_switch.go,
 * service/cell_generation_lifecycle.go, service/state_lifecycle.go, service/catchup_master.go):
 * two mutexes, a switching flag and a pending persist error, taken and checked one at a time by
 * any number of writers and switch attempts.  Main result: from the moment an attempt has read
 * the durable current state to the moment it ends, that state stays the durable one, no
 * checkpoint is being written and none can start.
 */
module GenerationSwitch {
  import opened Common

  /** A current state: its master seqno, its block references and its state roots. */
  datatype Current = Current(seqno: nat, refs: nat, roots: nat)

  datatype Actor =
    // A checkpoint writer.
    | WriterIdle
    | WriterLocked
    | WriterCleared
    | Writing(next: Current)
    | Written
    // A switch attempt.
    | SwitchIdle
    | HasState
    | HasBoth
    | ErrorTaken
    | FlagClear
    | Loaded(latest: Current)
    | Compared(latest: Current, candidate: Current)
    | Flagged(latest: Current, candidate: Current)
    | PersistFreed(latest: Current, candidate: Current)
    | Deciding(latest: Current, candidate: Current)
    | Active(latest: Current, candidate: Current)
    | Ending(latest: Current, candidate: Current)
    | Backing

  datatype Switch = Switch(handed: Current, durable: Current, candidate: Current)

  datatype State = State(
    actors: map<nat, Actor>,
    persistMu: Option<nat>,
    stateMu: Option<nat>,
    switching: bool,
    persistError: bool,
    durable: Current,
    switches: seq<Switch>)

  datatype Step =
    // beginCurrentStatePersist, tryBeginCurrentStatePersist, saveNextBlockCheckpointLocked
    | LockWriter(actor: nat)
    | TakeError(actor: nat)
    | CheckFlag(actor: nat, next: Current)
    | Save(actor: nat, ok: bool, keepsError: bool)
    | UnlockWriter(actor: nat)
    // trySwitchCellGenerationCandidate
    | LockState(actor: nat)
    | LockPersist(actor: nat)
    | SwitchTakeError(actor: nat)
    | SwitchCheckFlag(actor: nat)
    | LoadLatest(actor: nat, ok: bool)
    | Compare(actor: nat, candidate: Current)
    | BeginSwitch(actor: nat)
    | FreePersist(actor: nat)
    | FreeState(actor: nat)
    | LoadActive(actor: nat, ok: bool)
    | SwitchGeneration(actor: nat, ok: bool)
    | FinishSwitch(actor: nat)
    | BackOff(actor: nat)

  /** The pcs at which an actor holds the persist mutex. */
  predicate HoldsPersist(a: Actor) {
    || a.WriterLocked? || a.WriterCleared? || a.Writing? || a.Written?
    || a.HasBoth? || a.ErrorTaken? || a.FlagClear? || a.Loaded? || a.Compared? || a.Flagged? || a.Backing?
  }

  predicate HoldsState(a: Actor) {
    || a.HasState? || a.HasBoth? || a.ErrorTaken? || a.FlagClear? || a.Loaded? || a.Compared? || a.Flagged?
        || a.PersistFreed? || a.Backing?
  }

  /** The pcs at which an attempt has the flag set. */
  predicate HoldsFlag(a: Actor) {
    a.Flagged? || a.PersistFreed? || a.Deciding? || a.Active? || a.Ending?
  }

  /** An attempt that has read the durable state and not ended. */
  predicate Decides(a: Actor) {
    a.Loaded? || a.Compared? || HoldsFlag(a)
  }

  predicate Enabled(s: State, step: Step) {
    && step.actor in s.actors
    && var a := s.actors[step.actor];
       match step
       case LockWriter(_) => a.WriterIdle? && s.persistMu.None?
       case TakeError(_) => a.WriterLocked?
       case CheckFlag(_, _) => a.WriterCleared?
       case Save(_, _, _) => a.Writing?
       case UnlockWriter(_) => a.Written?
       case LockState(_) => a.SwitchIdle? && s.stateMu.None?
       case LockPersist(_) => a.HasState? && s.persistMu.None?
       case SwitchTakeError(_) => a.HasBoth?
       case SwitchCheckFlag(_) => a.ErrorTaken?
       case LoadLatest(_, _) => a.FlagClear?
       case Compare(_, _) => a.Loaded?
       case BeginSwitch(_) => a.Compared?
       case FreePersist(_) => a.Flagged?
       case FreeState(_) => a.PersistFreed?
       case LoadActive(_, _) => a.Deciding?
       case SwitchGeneration(_, _) => a.Active?
       case FinishSwitch(_) => a.Ending?
       case BackOff(_) => a.Backing?
  }

  function Go(s: State, actor: nat, a: Actor): (r: State) {
    s.(actors := s.actors[actor := a])
  }

  /** The candidate is still the durable current state: not behind it, with the same references and roots. */
  predicate Matches(latest: Current, candidate: Current) {
    latest.seqno <= candidate.seqno && latest.refs == candidate.refs && latest.roots == candidate.roots
  }

  function Next(s: State, step: Step): (r: State) {
    if !Enabled(s, step) then s
    else
      var (id, a) := (step.actor, s.actors[step.actor]);
      match step
      case LockWriter(_) => Go(s, id, WriterLocked).(persistMu := Some(id))
      case TakeError(_) =>
        if s.persistError then Go(s, id, WriterIdle).(persistError := false, persistMu := None)
          else Go(s, id, WriterCleared)
      case CheckFlag(_, next) =>
        if s.switching then Go(s, id, WriterIdle).(persistMu := None) else Go(s, id, Writing(next))
      case Save(_, ok, keepsError) =>
        if ok then Go(s, id, Written).(durable := a.next)
          else Go(s, id, Written).(persistError := s.persistError || keepsError)
      case UnlockWriter(_) => Go(s, id, WriterIdle).(persistMu := None)
      case LockState(_) => Go(s, id, HasState).(stateMu := Some(id))
      case LockPersist(_) => Go(s, id, HasBoth).(persistMu := Some(id))
      case SwitchTakeError(_) => if s.persistError then Go(s, id, Backing).(persistError := false)
        else Go(s, id, ErrorTaken)
      case SwitchCheckFlag(_) => Go(s, id, if s.switching then Backing else FlagClear)
      case LoadLatest(_, ok) => Go(s, id, if ok then Loaded(s.durable) else Backing)
      case Compare(_, candidate) => Go(s, id, if Matches(a.latest, candidate) then Compared(a.latest, candidate)
                                       else Backing)
      case BeginSwitch(_) => if s.switching then Go(s, id, Backing)
        else Go(s, id, Flagged(a.latest, a.candidate)).(switching := true)
      case FreePersist(_) => Go(s, id, PersistFreed(a.latest, a.candidate)).(persistMu := None)
      case FreeState(_) => Go(s, id, Deciding(a.latest, a.candidate)).(stateMu := None)
      case LoadActive(_, ok) => Go(s, id, if ok then Active(a.latest, a.candidate) else Ending(a.latest, a.candidate))
      case SwitchGeneration(_, ok) =>
        Go(s, id, Ending(a.latest, a.candidate)).(
          switches := if ok then s.switches + [Switch(a.latest, s.durable, a.candidate)] else s.switches)
      case FinishSwitch(_) => Go(s, id, SwitchIdle).(switching := false)
      case BackOff(_) => Go(s, id, SwitchIdle).(persistMu := None, stateMu := None)
  }

  predicate Initial(s: State) {
    && (forall i :: i in s.actors ==> s.actors[i].WriterIdle? || s.actors[i].SwitchIdle?)
    && s.persistMu.None? && s.stateMu.None? && !s.switching && s.switches == []
  }

  function Run(start: State, steps: seq<Step>): (s: State) {
    if steps == [] then start else Next(Run(start, steps[..|steps| - 1]), steps[|steps| - 1])
  }

  // What every step keeps.

  ghost predicate ActorOk(a: Actor, i: nat, persistMu: Option<nat>, stateMu: Option<nat>, switching: bool,
                          durable: Current)
  {
    && (HoldsPersist(a) <==> persistMu == Some(i))
    && (HoldsState(a) <==> stateMu == Some(i))
    && (a.Writing? ==> !switching)
    && (HoldsFlag(a) ==> switching)
    && (Decides(a) ==> a.latest == durable)
    && (a.Compared? || HoldsFlag(a) ==> Matches(a.latest, a.candidate))
  }

  ghost predicate OneFlag(actors: map<nat, Actor>) {
    forall i, j :: i in actors && j in actors && i != j && HoldsFlag(actors[i]) ==> !HoldsFlag(actors[j])
  }

  ghost predicate Inv(s: State) {
    && (forall i :: i in s.actors ==> ActorOk(s.actors[i], i, s.persistMu, s.stateMu, s.switching, s.durable))
    && OneFlag(s.actors)
    && (s.persistMu.Some? ==> s.persistMu.value in s.actors)
    && (s.switching ==> exists i :: i in s.actors && HoldsFlag(s.actors[i]))
    && (forall k :: 0 <= k < |s.switches| ==> SwitchOk(s.switches[k]))
  }

  predicate SwitchOk(w: Switch) {
    w.handed == w.durable && Matches(w.durable, w.candidate)
  }

  ghost predicate ActorFits(s: State, i: nat)
    requires i in s.actors
  {
    ActorOk(s.actors[i], i, s.persistMu, s.stateMu, s.switching, s.durable)
  }

  predicate OfWriter(step: Step) {
    step.LockWriter? || step.TakeError? || step.CheckFlag? || step.Save? || step.UnlockWriter?
  }

  /** The steps of an attempt under both mutexes. */
  predicate Locked(step: Step) {
    step.SwitchTakeError? || step.SwitchCheckFlag? || step.LoadLatest? || step.Compare? || step.BeginSwitch?
        || step.BackOff?
  }

  lemma WriterKeepsOwn(s: State, step: Step)
    requires Enabled(s, step) && ActorFits(s, step.actor) && OfWriter(step)
    ensures ActorFits(Next(s, step), step.actor)
  {
  }

  lemma LockedKeepsOwn(s: State, step: Step)
    requires Enabled(s, step) && ActorFits(s, step.actor) && Locked(step)
    ensures ActorFits(Next(s, step), step.actor)
  {
  }

  lemma StepKeepsOwn(s: State, step: Step)
    requires Enabled(s, step) && ActorFits(s, step.actor)
    ensures ActorFits(Next(s, step), step.actor)
  {
    if OfWriter(step) {
      WriterKeepsOwn(s, step);
    } else if Locked(step) {
      LockedKeepsOwn(s, step);
    }
  }

  lemma StepKeepsOther(s: State, step: Step, i: nat)
    requires Enabled(s, step) && ActorFits(s, step.actor) && i in s.actors && ActorFits(s, i) && i != step.actor
             && OneFlag(s.actors)
    ensures ActorFits(Next(s, step), i)
  {
    assert Next(s, step).actors[i] == s.actors[i];
  }

  lemma StepKeepsOneFlag(s: State, step: Step)
    requires Inv(s) && Enabled(s, step)
    ensures OneFlag(Next(s, step).actors)
  {
    var (id, r) := (step.actor, Next(s, step));
    assert r.actors == s.actors[id := r.actors[id]];
    if HoldsFlag(r.actors[id]) && !HoldsFlag(s.actors[id]) {
      FlagIsFree(s, step);
    }
  }

  /** Only an attempt that finds the flag free takes it. */
  lemma FlagIsFree(s: State, step: Step)
    requires Inv(s) && Enabled(s, step) && HoldsFlag(Next(s, step).actors[step.actor])
             && !HoldsFlag(s.actors[step.actor])
    ensures forall i :: i in s.actors ==> !HoldsFlag(s.actors[i])
  {
    assert step.BeginSwitch? && !s.switching;
    forall i | i in s.actors
      ensures !HoldsFlag(s.actors[i])
    {
      assert ActorFits(s, i);
    }
  }

  lemma StepKeepsFlag(s: State, step: Step)
    requires Inv(s) && Enabled(s, step)
    ensures Next(s, step).switching ==> exists i :: i in Next(s, step).actors && HoldsFlag(Next(s, step).actors[i])
  {
    var r := Next(s, step);
    var id := step.actor;
    assert ActorFits(s, id);
    if r.switching {
      if s.switching {
        var i :| i in s.actors && HoldsFlag(s.actors[i]);
        assert i in r.actors && HoldsFlag(r.actors[i]);
      } else {
        assert HoldsFlag(r.actors[id]);
      }
    }
  }

  lemma StepKeepsInv(s: State, step: Step)
    requires Inv(s)
    ensures Inv(Next(s, step))
  {
    if Enabled(s, step) {
      var r := Next(s, step);
      assert ActorFits(s, step.actor);
      forall i | i in r.actors
        ensures ActorFits(r, i)
      {
        assert ActorFits(s, i);
        if i == step.actor {
          StepKeepsOwn(s, step);
        } else {
          StepKeepsOther(s, step, i);
        }
      }
      StepKeepsOneFlag(s, step);
      StepKeepsFlag(s, step);
    }
  }

  lemma {:induction false} RunKeepsInv(start: State, steps: seq<Step>)
    requires Initial(start)
    ensures Inv(Run(start, steps))
  {
    if steps != [] {
      RunKeepsInv(start, steps[..|steps| - 1]);
      StepKeepsInv(Run(start, steps[..|steps| - 1]), steps[|steps| - 1]);
    }
  }

  /**
   Every generation switch was handed the state that was durable when it was made, and its candidate had the same
   references and roots and was not behind it.
  */
  lemma SwitchesAreOfDurable(start: State, steps: seq<Step>, k: nat)
    requires Initial(start) && k < |Run(start, steps).switches|
    ensures var w := Run(start, steps).switches[k];
            && w.handed == w.durable
            && w.candidate.refs == w.durable.refs && w.candidate.roots == w.durable.roots
            && w.durable.seqno <= w.candidate.seqno
  {
    RunKeepsInv(start, steps);
    assert SwitchOk(Run(start, steps).switches[k]);
  }

  /** While an attempt decides, what it has read is the durable state and no checkpoint is being written. */
  lemma NoCheckpointInFlight(start: State, steps: seq<Step>, attempt: nat, writer: nat)
    requires Initial(start)
    requires var s := Run(start, steps); attempt in s.actors && Decides(s.actors[attempt]) && writer in s.actors
    ensures var s := Run(start, steps); s.actors[attempt].latest == s.durable && !s.actors[writer].Writing?
  {
    RunKeepsInv(start, steps);
    var s := Run(start, steps);
    assert ActorFits(s, attempt) && ActorFits(s, writer);
  }

  /** And for as long as it goes on deciding, whatever the others do, the durable state does not move. */
  lemma {:induction false} DurableStays(start: State, steps: seq<Step>, more: seq<Step>, attempt: nat)
    requires Initial(start) && attempt in Run(start, steps).actors
    requires forall n :: 0 <= n <= |more| ==> DecidesAfter(start, steps + more[..n], attempt)
    ensures Run(start, steps + more).durable == Run(start, steps).durable
  {
    if more == [] {
      assert steps + more == steps;
    } else {
      var init := more[..|more| - 1];
      assert forall n :: 0 <= n <= |init| ==> init[..n] == more[..n];
      DurableStays(start, steps, init, attempt);
      assert DecidesAfter(start, steps + more[..|init|], attempt) && more[..|init|] == init;
      assert steps + more == steps + init + [more[|more| - 1]];
      StaysByStep(start, steps + init, more[|more| - 1], attempt);
    }
  }

  lemma StaysByStep(start: State, steps: seq<Step>, step: Step, attempt: nat)
    requires Initial(start) && DecidesAfter(start, steps, attempt)
    ensures Run(start, steps + [step]).durable == Run(start, steps).durable
  {
    assert (steps + [step])[..|steps|] == steps;
    RunKeepsInv(start, steps);
    OnlyWritersMove(Run(start, steps), step, attempt);
  }

  predicate DecidesAfter(start: State, steps: seq<Step>, attempt: nat) {
    attempt in Run(start, steps).actors && Decides(Run(start, steps).actors[attempt])
  }

  lemma OnlyWritersMove(s: State, step: Step, attempt: nat)
    requires Inv(s) && attempt in s.actors && Decides(s.actors[attempt])
    ensures Next(s, step).durable == s.durable
  {
    if Enabled(s, step) {
      assert ActorFits(s, attempt) && ActorFits(s, step.actor);
    }
  }

  /** The step an actor takes next, when no mutex keeps it. */
  function StepOf(a: Actor, i: nat): (step: Step) {
    match a
    case WriterIdle => LockWriter(i)
    case WriterLocked => TakeError(i)
    case WriterCleared => CheckFlag(i, Current(0, 0, 0))
    case Writing(_) => Save(i, true, false)
    case Written => UnlockWriter(i)
    case SwitchIdle => LockState(i)
    case HasState => LockPersist(i)
    case HasBoth => SwitchTakeError(i)
    case ErrorTaken => SwitchCheckFlag(i)
    case FlagClear => LoadLatest(i, true)
    case Loaded(latest) => Compare(i, latest)
    case Compared(_, _) => BeginSwitch(i)
    case Flagged(_, _) => FreePersist(i)
    case PersistFreed(_, _) => FreeState(i)
    case Deciding(_, _) => LoadActive(i, true)
    case Active(_, _) => SwitchGeneration(i, true)
    case Ending(_, _) => FinishSwitch(i)
    case Backing => BackOff(i)
  }

  /** While anyone is under way, someone who is under way can go on. */
  lemma NoDeadlock(start: State, steps: seq<Step>, busy: nat)
    requires Initial(start)
    requires busy in Run(start, steps).actors && !Run(start, steps).actors[busy].WriterIdle?
             && !Run(start, steps).actors[busy].SwitchIdle?
    ensures exists i ::
              i in Run(start, steps).actors && Enabled(Run(start, steps), StepOf(Run(start, steps).actors[i], i))
              && !Run(start, steps).actors[i].WriterIdle? && !Run(start, steps).actors[i].SwitchIdle?
  {
    RunKeepsInv(start, steps);
    var s := Run(start, steps);
    if s.actors[busy].HasState? && s.persistMu.Some? {
      var holder := s.persistMu.value;
      assert ActorFits(s, holder);
      CanStep(s, holder);
    } else {
      CanStep(s, busy);
    }
  }

  lemma CanStep(s: State, i: nat)
    requires i in s.actors && !s.actors[i].WriterIdle? && !s.actors[i].SwitchIdle?
    requires s.actors[i].HasState? ==> s.persistMu.None?
    ensures Enabled(s, StepOf(s.actors[i], i))
  {
  }

  // What the gates let through.

  /** A writer goes on exactly when no error waits and no switch is under way; an error is taken by the one it stops. */
  lemma WriterGates(s: State, i: nat, next: Current)
    requires i in s.actors
    ensures s.actors[i].WriterLocked? ==>
              var r := Next(s, TakeError(i));
              && (r.actors[i] == if s.persistError then WriterIdle else WriterCleared)
              && !r.persistError && (s.persistError ==> r.persistMu.None?)
    ensures s.actors[i].WriterCleared? ==>
              var r := Next(s, CheckFlag(i, next));
              && (r.actors[i] == if s.switching then WriterIdle else Writing(next))
              && (s.switching ==> r.persistMu.None?)
  {
  }

  /** A write that succeeds makes its state the durable one; one that fails leaves it and may leave an error. */
  lemma SaveExactly(s: State, i: nat, ok: bool, keepsError: bool)
    requires i in s.actors && s.actors[i].Writing?
    ensures var r := Next(s, Save(i, ok, keepsError));
            && r.durable == (if ok then s.actors[i].next else s.durable)
            && r.persistError == (s.persistError || (!ok && keepsError))
  {
  }

  /** An attempt under both mutexes goes on exactly when no error waits and no other attempt has the flag. */
  lemma AttemptGates(s: State, i: nat)
    requires i in s.actors
    ensures s.actors[i].HasBoth? ==>
              var r := Next(s, SwitchTakeError(i));
              (r.actors[i] == if s.persistError then Backing else ErrorTaken) && !r.persistError
    ensures s.actors[i].ErrorTaken? ==>
              Next(s, SwitchCheckFlag(i)).actors[i] == if s.switching then Backing else FlagClear
  {
  }

  function Attempt(i: nat, candidate: Current): (steps: seq<Step>) {
    Reading(i) + [Compare(i, candidate)] + [BeginSwitch(i)] + [FreePersist(i)] + [FreeState(i)]
    + [LoadActive(i, true)] + [SwitchGeneration(i, true)]
  }

  function Reading(i: nat): (steps: seq<Step>) {
    [] + [LockState(i)] + [LockPersist(i)] + [SwitchTakeError(i)] + [SwitchCheckFlag(i)] + [LoadLatest(i, true)]
  }

  lemma RunNext(start: State, steps: seq<Step>, step: Step)
    ensures Run(start, steps + [step]) == Next(Run(start, steps), step)
  {
    assert (steps + [step])[..|steps|] == steps;
  }

  /** Where the attempt is while nothing else has moved. */
  ghost predicate Alone(s: State, start: State, i: nat, a: Actor) {
    i in s.actors && s.actors[i] == a && s.durable == start.durable && s.switches == []
  }

  lemma LocksBoth(start: State, i: nat)
    requires Initial(start) && !start.persistError && i in start.actors && start.actors[i].SwitchIdle?
    ensures var s := Next(Next(start, LockState(i)), LockPersist(i));
            Alone(s, start, i, HasBoth) && !s.persistError && !s.switching
  {
  }

  lemma Reads(s: State, start: State, i: nat)
    requires Alone(s, start, i, HasBoth) && !s.persistError && !s.switching
    ensures var r := Next(Next(Next(s, SwitchTakeError(i)), SwitchCheckFlag(i)), LoadLatest(i, true));
            Alone(r, start, i, Loaded(start.durable)) && !r.switching
  {
  }

  lemma ReadingReads(start: State, i: nat)
    requires Initial(start) && !start.persistError && i in start.actors && start.actors[i].SwitchIdle?
    ensures var s := Run(start, Reading(i)); Alone(s, start, i, Loaded(start.durable)) && !s.switching
  {
    var m1 := [] + [LockState(i)];
    var m2 := m1 + [LockPersist(i)];
    var m3 := m2 + [SwitchTakeError(i)];
    RunNext(start, [], LockState(i));
    RunNext(start, m1, LockPersist(i));
    LocksBoth(start, i);
    RunNext(start, m2, SwitchTakeError(i));
    RunNext(start, m3, SwitchCheckFlag(i));
    RunNext(start, m3 + [SwitchCheckFlag(i)], LoadLatest(i, true));
    Reads(Run(start, m2), start, i);
  }

  /** The candidate has the references and roots of the durable state and is not behind it. */
  predicate Suits(durable: Current, candidate: Current) {
    candidate.refs == durable.refs && candidate.roots == durable.roots && candidate.seqno >= durable.seqno
  }

  lemma Compares(s: State, start: State, i: nat, candidate: Current)
    requires Alone(s, start, i, Loaded(start.durable)) && !s.switching
    ensures var r := Next(s, Compare(i, candidate));
            && !r.switching
            && Alone(r, start, i, if Suits(start.durable, candidate) then Compared(start.durable, candidate)
                                  else Backing)
  {
  }

  lemma Frees(s: State, start: State, i: nat, candidate: Current)
    requires Alone(s, start, i, Compared(start.durable, candidate)) && !s.switching
    ensures var r := Next(Next(Next(s, BeginSwitch(i)), FreePersist(i)), FreeState(i));
            Alone(r, start, i, Deciding(start.durable, candidate))
  {
  }

  lemma Switches(s: State, start: State, i: nat, candidate: Current)
    requires Alone(s, start, i, Deciding(start.durable, candidate))
    ensures Next(Next(s, LoadActive(i, true)), SwitchGeneration(i, true)).switches ==
            [Switch(start.durable, start.durable, candidate)]
  {
  }

  lemma BacksOff(s: State, start: State, i: nat)
    requires Alone(s, start, i, Backing)
    ensures Next(Next(Next(s, BeginSwitch(i)), FreePersist(i)), FreeState(i)) == s
    ensures Next(Next(s, LoadActive(i, true)), SwitchGeneration(i, true)) == s
  {
  }

  /** An attempt that nothing disturbs makes the switch exactly when its candidate suits the durable state. */
  lemma AttemptSwitches(start: State, i: nat, candidate: Current)
    requires Initial(start) && !start.persistError && i in start.actors && start.actors[i].SwitchIdle?
    ensures Run(start, Attempt(i, candidate)).switches ==
            if Suits(start.durable, candidate) then [Switch(start.durable, start.durable, candidate)] else []
  {
    var m0 := Reading(i);
    var m1 := m0 + [Compare(i, candidate)];
    var m4 := m1 + [BeginSwitch(i)] + [FreePersist(i)] + [FreeState(i)];
    ReadingReads(start, i);
    RunNext(start, m0, Compare(i, candidate));
    Compares(Run(start, m0), start, i, candidate);
    EndsAfter(start, m1, i, candidate);
    if Suits(start.durable, candidate) {
      Frees(Run(start, m1), start, i, candidate);
      Switches(Run(start, m4), start, i, candidate);
    } else {
      BacksOff(Run(start, m1), start, i);
    }
  }

  lemma EndsAfter(start: State, steps: seq<Step>, i: nat, candidate: Current)
    ensures var freed := steps + [BeginSwitch(i)] + [FreePersist(i)] + [FreeState(i)];
            && Run(start, freed) == Next(Next(Next(Run(start, steps), BeginSwitch(i)), FreePersist(i)), FreeState(i))
            && Run(start, freed + [LoadActive(i, true)] + [SwitchGeneration(i, true)]) ==
               Next(Next(Run(start, freed), LoadActive(i, true)), SwitchGeneration(i, true))
  {
    var freed := steps + [BeginSwitch(i)] + [FreePersist(i)] + [FreeState(i)];
    RunNext(start, steps, BeginSwitch(i));
    RunNext(start, steps + [BeginSwitch(i)], FreePersist(i));
    RunNext(start, steps + [BeginSwitch(i)] + [FreePersist(i)], FreeState(i));
    RunNext(start, freed, LoadActive(i, true));
    RunNext(start, freed + [LoadActive(i, true)], SwitchGeneration(i, true));
  }
}
