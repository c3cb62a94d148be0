/** What monitors count, and that a recovery loop can bring the core back. */
module LifecycleProgress {
  import opened Wrappers
  import opened LifecycleMachine
  import opened LifecycleInvariant
  import opened LifecycleTheorems
  import opened LifecycleHistory

  // ----- three failures in a row

  predicate Polls(pc: Pc) { pc.Monitor? && pc.monitor.Poll? }

  /** The service answered that the core does not run. */
  predicate Failure(choice: nat) { choice != 0 && choice != 2 }

  /** How many polls of thread `t` in a row have failed, told from the run. */
  ghost function FailedInARow(trace: seq<State>, steps: seq<Step>, i: nat, t: nat): nat
    requires i <= |steps| && i <= |trace|
  {
    if i == 0 then 0
    else
      var step := steps[i - 1];
      if step.Act? && step.thread == t && Polls(Actor(trace[i - 1], step))
      then (if Failure(step.choice) then FailedInARow(trace, steps, i - 1, t) + 1 else 0)
      else FailedInARow(trace, steps, i - 1, t)
  }

  /** What a move makes of a monitor's count. */
  ghost predicate CountShape(pc: Pc, choice: nat, move: Move) {
    && (move.pc.Monitor? ==>
          pc.Monitor? && move.pc.failures == (if !Polls(pc) then pc.failures
                                              else if Failure(choice) then pc.failures + 1 else 0))
    && (move.spawned.Monitor? ==> move.spawned.failures == 0)
    && (Polls(pc) ==>
          (move.pc.Monitor? && move.pc.monitor.MonitorRetire? <==> Failure(choice) && pc.failures + 1 >= 3))
  }

  lemma StartCounts(m: Memory, caller: Caller, stage: Stage, g: Generation, ok: bool, choice: nat)
    ensures CountShape(Start(caller, stage, g), choice, StartMove(m, caller, stage, g, ok))
  {
  }

  lemma MonitorCounts(m: Memory, next: nat, at: MonitorAt, g: Generation, failures: nat, choice: nat)
    ensures CountShape(Monitor(at, g, failures), choice, MonitorMove(m, next, at, g, failures, choice))
  {
  }

  lemma UpgradeCounts(m: Memory, t: nat, next: nat, at: UpgradeAt, saved: Saved, alive: bool, retry: bool, choice: nat)
    ensures var pc := Upgrade(at, saved, alive, retry); CountShape(pc, choice, UpgradeMove(m, t, next, pc, choice))
  {
  }

  lemma MoveCounts(m: Memory, t: nat, next: nat, pc: Pc, choice: nat)
    ensures CountShape(pc, choice, MoveOf(m, t, next, pc, choice))
  {
    hide StartMove, MonitorMove, UpgradeMove;
    match pc
    case Done =>
    case Release(after) =>
    case Start(caller, stage, g) => StartCounts(m, caller, stage, g, choice != 0, choice);
    case Run(at) =>
    case Loop(at) =>
    case Term(at, g) =>
    case Monitor(at, g, failures) => MonitorCounts(m, next, at, g, failures, choice);
    case Stop(at) =>
    case Upgrade(at, saved, alive, retry) => UpgradeCounts(m, t, next, at, saved, alive, retry, choice);
  }

  /** A thread that does not exist yet has not polled. */
  lemma {:induction false} NothingCountedYet(trace: seq<State>, steps: seq<Step>, i: nat, t: nat)
    requires Execution(trace, steps) && i < |trace| && t >= |trace[i].threads|
    ensures FailedInARow(trace, steps, i, t) == 0
  {
    if i > 0 {
      ExecutionStep(trace, steps, i - 1);
      ThreadsGrow(trace[i - 1], steps[i - 1]);
      hide Next, Enabled;
      NothingCountedYet(trace, steps, i - 1, t);
    }
  }

  lemma ThreadsGrow(s: State, step: Step)
    requires Enabled(s, step)
    ensures |s.threads| <= |Next(s, step).threads|
  {
    hide MoveOf;
  }

  /** A monitor's counter is the number of its polls that have failed in a row. */
  lemma {:induction false} MonitorsCount(trace: seq<State>, steps: seq<Step>, i: nat, t: nat)
    requires Execution(trace, steps) && i < |trace| && t < |trace[i].threads| && trace[i].threads[t].Monitor?
    ensures trace[i].threads[t].failures == FailedInARow(trace, steps, i, t)
  {
    assert i > 0;
    var s, step := trace[i - 1], steps[i - 1];
    ExecutionStep(trace, steps, i - 1);
    CountStep(s, step, t);
    hide Next, Enabled;
    if t < |s.threads| {
      MonitorsCount(trace, steps, i - 1, t);
    } else {
      NothingCountedYet(trace, steps, i - 1, t);
    }
  }

  lemma CountStep(s: State, step: Step, t: nat)
    requires Enabled(s, step) && t < |Next(s, step).threads| && Next(s, step).threads[t].Monitor?
    ensures var failures := Next(s, step).threads[t].failures;
      if t >= |s.threads| then failures == 0 && !(step.Act? && step.thread == t)
      else s.threads[t].Monitor? && failures ==
             if step.Act? && step.thread == t && Polls(s.threads[t])
             then (if Failure(step.choice) then s.threads[t].failures + 1 else 0)
             else s.threads[t].failures
  {
    if step.Act? {
      var u := step.thread;
      MoveCounts(s.memory, u, |s.threads|, s.threads[u], step.choice);
      hide MoveOf, CanAct;
      assert Moved(s, u, MoveOf(s.memory, u, |s.threads|, s.threads[u], step.choice), Next(s, step));
    }
  }

  /** A monitor gives up on its core exactly with the third poll in a row that fails. */
  lemma MonitorGivesUp(trace: seq<State>, steps: seq<Step>, i: nat)
    requires Execution(trace, steps) && i < |steps| && Polls(Actor(trace[i], steps[i]))
    ensures var t := steps[i].thread;
      && t < |trace[i + 1].threads|
      && var pc := trace[i + 1].threads[t];
      && (pc.Monitor? && pc.monitor.MonitorRetire? <==>
            Failure(steps[i].choice) && FailedInARow(trace, steps, i + 1, t) >= 3)
  {
    var s, t := trace[i], steps[i].thread;
    MonitorsCount(trace, steps, i, t);
    MoveCounts(s.memory, t, |s.threads|, s.threads[t], steps[i].choice);
    ExecutionStep(trace, steps, i);
    hide MoveOf, CanAct;
    assert Moved(s, t, MoveOf(s.memory, t, |s.threads|, s.threads[t], steps[i].choice), trace[i + 1]);
  }

  // ----- a stop stops

  predicate AtKill(pc: Pc) { pc == Stop(StopKill) }

  lemma KillComesNext(m: Memory, t: nat, next: nat, pc: Pc, choice: nat)
    ensures var move := MoveOf(m, t, next, pc, choice);
      && (AtKill(move.pc) ==> pc == Stop(StopActive) && move.memory.active == 0)
      && !AtKill(move.spawned)
  {
    hide StartMove, UpgradeMove;
    match pc
    case Done =>
    case Release(after) =>
    case Start(caller, stage, g) => StartIsNoKill(m, caller, stage, g, choice != 0);
    case Run(at) =>
    case Loop(at) =>
    case Term(at, g) =>
    case Monitor(at, g, failures) =>
    case Stop(at) =>
    case Upgrade(at, saved, alive, retry) => UpgradeIsNoKill(m, t, next, at, saved, alive, retry, choice);
  }

  lemma StartIsNoKill(m: Memory, caller: Caller, stage: Stage, g: Generation, ok: bool)
    ensures var move := StartMove(m, caller, stage, g, ok); !AtKill(move.pc) && !AtKill(move.spawned)
  {
  }

  lemma UpgradeIsNoKill(
      m: Memory, t: nat, next: nat, at: UpgradeAt, saved: Saved, alive: bool, retry: bool, choice: nat)
    ensures var move := UpgradeMove(m, t, next, Upgrade(at, saved, alive, retry), choice);
      !AtKill(move.pc) && !AtKill(move.spawned)
  {
  }

  /** By the time a stop kills the child, no generation is active. */
  lemma {:induction false} NothingActiveAtKill(trace: seq<State>, steps: seq<Step>, i: nat, t: nat)
    requires Execution(trace, steps) && i < |trace| && t < |trace[i].threads| && AtKill(trace[i].threads[t])
    ensures trace[i].memory.active == 0
  {
    if i > 0 {
      var s, step := trace[i - 1], steps[i - 1];
      InvAlways(trace, steps, i - 1);
      ExecutionStep(trace, steps, i - 1);
      KillStep(s, step, t);
      hide Next, Enabled, Inv;
      if t < |s.threads| && AtKill(s.threads[t]) {
        NothingActiveAtKill(trace, steps, i - 1, t);
      }
    }
  }

  lemma KillStep(s: State, step: Step, t: nat)
    requires Inv(s) && Enabled(s, step) && t < |Next(s, step).threads| && AtKill(Next(s, step).threads[t])
    ensures (t < |s.threads| && AtKill(s.threads[t])) || Next(s, step).memory.active == 0
    ensures t < |s.threads| && AtKill(s.threads[t]) && s.memory.active == 0 ==> Next(s, step).memory.active == 0
  {
    if step.Act? {
      var u := step.thread;
      KillComesNext(s.memory, u, |s.threads|, s.threads[u], step.choice);
      if t < |s.threads| && AtKill(s.threads[t]) && u != t {
        assert Holds(s.threads[t]);
        LoneHolder(s, t, u);
        ActiveOutsideLock(s.memory, u, |s.threads|, s.threads[u], step.choice);
      }
      hide MoveOf, CanAct, Inv, AtKill, Holds, Event;
      assert Moved(s, u, MoveOf(s.memory, u, |s.threads|, s.threads[u], step.choice), Next(s, step));
    }
  }

  lemma LoneHolder(s: State, t: nat, u: nat)
    requires Inv(s) && t < |s.threads| && u < |s.threads| && Holds(s.threads[t]) && t != u
    ensures !Holds(s.threads[u])
  {
    hide Holds, SlotKept, QuietKept, NotLost, DarkKept, ReadyBacked, BoundsDrawn, GenerationsKept;
  }

  /** A stop leaves no core that is ready or active, nor, unless the service holds it, a child. */
  lemma StopStops(trace: seq<State>, steps: seq<Step>, i: nat)
    requires Execution(trace, steps) && i < |steps| && AtKill(Actor(trace[i], steps[i]))
    ensures var m := trace[i + 1].memory;
      !m.ready && m.active == 0 && (!trace[i].memory.service ==> m.sidecar == None)
  {
    var t := steps[i].thread;
    assert Dark(trace[i].threads[t]);
    InvAlways(trace, steps, i);
    NothingActiveAtKill(trace, steps, i, t);
    hide LockKept, SlotKept, QuietKept, NotLost, ReadyBacked, BoundsDrawn, GenerationsKept;
  }

  // ----- a recovery loop can bring the core back

  ghost predicate Extends(trace: seq<State>, steps: seq<Step>, trace': seq<State>, steps': seq<Step>) {
    && Execution(trace', steps') && |trace| <= |trace'| && trace'[..|trace|] == trace
    && |steps| <= |steps'| && steps'[..|steps|] == steps
  }

  /** Thread `t` is at `pc` with this memory. */
  predicate At(s: State, t: nat, m: Memory, pc: Pc) { t < |s.threads| && s.threads[t] == pc && s.memory == m }

  /** Thread `t` alone makes one move. */
  lemma Solo(trace: seq<State>, steps: seq<Step>, before: seq<State>, did: seq<Step>,
             t: nat, m: Memory, pc: Pc, choice: nat, m': Memory, pc': Pc)
    returns (trace': seq<State>, steps': seq<Step>)
    requires Extends(before, did, trace, steps) && At(trace[|steps|], t, m, pc) && CanAct(m, pc)
    requires var move := MoveOf(m, t, |trace[|steps|].threads|, pc, choice); move.memory == m' && move.pc == pc'
    ensures Extends(before, did, trace', steps') && |steps'| == |steps| + 1 && At(trace'[|steps'|], t, m', pc')
  {
    var s := trace[|steps|];
    assert Enabled(s, Act(t, choice));
    var s' := Next(s, Act(t, choice));
    hide MoveOf, CanAct, Enabled, Next;
    steps' := steps + [Act(t, choice)];
    trace' := trace + [s'];
  }

  /** The same for one stage of a start. */
  lemma SoloStart(trace: seq<State>, steps: seq<Step>, before: seq<State>, did: seq<Step>,
                  t: nat, m: Memory, c: Caller, stage: Stage, g: Generation, ok: bool, m': Memory, pc': Pc)
    returns (trace': seq<State>, steps': seq<Step>)
    requires Extends(before, did, trace, steps) && At(trace[|steps|], t, m, Start(c, stage, g))
    requires StartMove(m, c, stage, g, ok).memory == m' && StartMove(m, c, stage, g, ok).pc == pc'
    ensures Extends(before, did, trace', steps') && |steps'| == |steps| + 1 && At(trace'[|steps'|], t, m', pc')
  {
    hide StartMove, Next, Enabled, Extends;
    trace', steps' := Solo(trace, steps, before, did, t, m, Start(c, stage, g), if ok then 1 else 0, m', pc');
  }

  /** From its start the loop gets to the lock. */
  lemma LoopTakesLock(trace: seq<State>, steps: seq<Step>, t: nat, m: Memory)
    returns (trace': seq<State>, steps': seq<Step>)
    requires Execution(trace, steps) && At(trace[|steps|], t, m, Loop(Top))
    requires m.desired && !m.ready && m.lock.None?
    ensures Extends(trace, steps, trace', steps') && |steps'| == |steps| + 8
    ensures At(trace'[|steps'|], t, m.(lock := Some(t)), Start(ByRecovery, Generate, 0))
  {
    hide Next, Enabled;
    trace', steps' := Solo(trace, steps, trace, steps, t, m, Loop(Top), 0, m, Loop(TopReady));
    trace', steps' := Solo(trace', steps', trace, steps, t, m, Loop(TopReady), 0, m, Loop(Sleep));
    trace', steps' := Solo(trace', steps', trace, steps, t, m, Loop(Sleep), 0, m, Loop(Check));
    trace', steps' := Solo(trace', steps', trace, steps, t, m, Loop(Check), 0, m, Loop(CheckReady));
    trace', steps' := Solo(trace', steps', trace, steps, t, m, Loop(CheckReady), 0, m, Loop(LoopWait));
    var l := m.(lock := Some(t));
    trace', steps' := Solo(trace', steps', trace, steps, t, m, Loop(LoopWait), 0, l, Loop(Locked));
    trace', steps' := Solo(trace', steps', trace, steps, t, l, Loop(Locked), 0, l, Loop(LockedReady));
    trace', steps' := Solo(trace', steps', trace, steps, t, l, Loop(LockedReady), 0, l, Start(ByRecovery, Generate, 0));
  }

  /** The old child is taken, and the child of the new generation about to be spawned. */
  lemma StartTakesOld(
      trace: seq<State>, steps: seq<Step>, before: seq<State>, did: seq<Step>, t: nat, m: Memory, c: Caller,
      g: Generation)
    returns (trace': seq<State>, steps': seq<Step>)
    requires Extends(before, did, trace, steps) && At(trace[|steps|], t, m, Start(c, Announce, g))
    ensures Extends(before, did, trace', steps') && |steps'| == |steps| + 4
    ensures At(trace'[|steps'|], t, m.(sidecar := None, service := false), Start(c, SpawnChild, g))
  {
    hide Next, Enabled, At;
    trace', steps' := SoloStart(trace, steps, before, did, t, m, c, Announce, g, true, m, Start(c, KillOld, g));
    var k := m.(sidecar := None);
    trace', steps' := SoloStart(trace', steps', before, did, t, m, c, KillOld, g, true, k, Start(c, ChooseMode, g));
    var v := k.(service := false);
    trace', steps' := SoloStart(trace', steps', before, did, t, k, c, ChooseMode, g, false, v, Start(c, Prepare, g));
    trace', steps' := SoloStart(trace', steps', before, did, t, v, c, Prepare, g, true, v, Start(c, SpawnChild, g));
  }

  /** The next generation is drawn, and everything prepared for its child. */
  lemma StartDraws(
      trace: seq<State>, steps: seq<Step>, before: seq<State>, did: seq<Step>, t: nat, m: Memory, c: Caller)
    returns (trace': seq<State>, steps': seq<Step>)
    requires Extends(before, did, trace, steps) && At(trace[|steps|], t, m, Start(c, Generate, 0))
    ensures Extends(before, did, trace', steps') && |steps'| == |steps| + 7
    ensures var g := m.generation + 1;
      At(trace'[|steps'|], t,
         m.(generation := g, active := g, sidecar := None, service := false, ready := false, stale := false),
         Start(c, SpawnChild, g))
  {
    hide Next, Enabled, At;
    var g := m.generation + 1;
    trace', steps' := SoloStart(trace, steps, before, did, t, m, c, Generate, 0, true, m, Start(c, Unready, 0));
    var n := m.(ready := false, stale := false);
    trace', steps' := SoloStart(trace', steps', before, did, t, m, c, Unready, 0, true, n, Start(c, DrawGeneration, 0));
    var d := n.(generation := g, active := g);
    var drawn := Start(c, Announce, g);
    trace', steps' := SoloStart(trace', steps', before, did, t, n, c, DrawGeneration, 0, true, d, drawn);
    trace', steps' := StartTakesOld(trace', steps', before, did, t, d, c, g);
  }

  /** The child is adopted and found ready. */
  lemma StartReadies(
      trace: seq<State>, steps: seq<Step>, before: seq<State>, did: seq<Step>, t: nat, m: Memory, c: Caller,
      g: Generation)
    returns (trace': seq<State>, steps': seq<Step>)
    requires Extends(before, did, trace, steps) && At(trace[|steps|], t, m, Start(c, SpawnChild, g)) && m.active == g
    ensures Extends(before, did, trace', steps') && |steps'| == |steps| + 6
    ensures At(trace'[|steps'|], t, m.(sidecar := Some(g), ready := true, stale := false, abandoned := false),
               Returned(c, true))
  {
    hide Next, Enabled, At;
    trace', steps' := SoloStart(trace, steps, before, did, t, m, c, SpawnChild, g, true, m, Start(c, Adopt, g));
    var a := m.(sidecar := Some(g));
    trace', steps' := SoloStart(trace', steps', before, did, t, m, c, Adopt, g, true, a, Start(c, WatchChild, g));
    trace', steps' := SoloStart(trace', steps', before, did, t, a, c, WatchChild, g, true, a, Start(c, AwaitReady, g));
    trace', steps' := SoloStart(trace', steps', before, did, t, a, c, AwaitReady, g, true, a, Start(c, Confirm, g));
    trace', steps' := SoloStart(trace', steps', before, did, t, a, c, Confirm, g, true, a, Start(c, MarkReady, g));
    var r := a.(ready := true, stale := false, abandoned := false);
    trace', steps' := SoloStart(trace', steps', before, did, t, a, c, MarkReady, g, true, r, Returned(c, true));
  }

  /** From its start, a loop of a wanted core that is not ready can have it up again after 22 steps of its own. */
  lemma LoopCanRecover(trace: seq<State>, steps: seq<Step>, t: nat) returns (trace': seq<State>, steps': seq<Step>)
    requires Execution(trace, steps) && t < |trace[|steps|].threads| && trace[|steps|].threads[t] == Loop(Top)
    requires var m := trace[|steps|].memory; m.desired && !m.ready && m.lock.None?
    ensures Extends(trace, steps, trace', steps') && |steps'| == |steps| + 22
    ensures var m, m' := trace[|steps|].memory, trace'[|steps'|].memory;
      && m'.ready && !m'.stale && m'.lock.None? && m'.desired
      && m'.active == m'.generation == m.generation + 1 && m'.sidecar == Some(m'.generation)
      && At(trace'[|steps'|], t, m', Loop(ClearSlot))
  {
    var m := trace[|steps|].memory;
    hide Next, Enabled;
    trace', steps' := LoopTakesLock(trace, steps, t, m);
    trace', steps' := StartDraws(trace', steps', trace, steps, t, m.(lock := Some(t)), ByRecovery);
    var d := trace'[|steps'|].memory;
    trace', steps' := StartReadies(trace', steps', trace, steps, t, d, ByRecovery, m.generation + 1);
    var r := trace'[|steps'|].memory;
    trace', steps' :=
      Solo(trace', steps', trace, steps, t, r, Release(Clear), 0, r.(lock := None), Loop(ClearSlot));
  }
}
