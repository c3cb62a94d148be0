/** What holds over every run of the core manager. */
module LifecycleTheorems {
  import opened Wrappers
  import opened LifecycleMachine
  import opened LifecycleInvariant

  /** One operation runs at a time, and one recovery loop owns the slot exactly while `recovery_scheduled` is set. */
  lemma OneHolderEach(trace: seq<State>, steps: seq<Step>, i: nat)
    requires Execution(trace, steps) && i < |trace|
    ensures var s := trace[i];
      && (forall t, u ::
            0 <= t < |s.threads| && 0 <= u < |s.threads| && Holds(s.threads[t]) && Holds(s.threads[u]) ==> t == u)
      && (forall t, u ::
            0 <= t < |s.threads| && 0 <= u < |s.threads| && OwnsSlot(s.threads[t]) && OwnsSlot(s.threads[u]) ==> t == u)
      && (s.memory.slot.Some? <==> exists t :: 0 <= t < |s.threads| && OwnsSlot(s.threads[t]))
  {
    InvAlways(trace, steps, i);
    hide Holds, OwnsSlot, QuietKept, NotLost, DarkKept, ReadyBacked, BoundsDrawn, GenerationsKept;
  }

  lemma ExecutionStep(trace: seq<State>, steps: seq<Step>, i: nat)
    requires Execution(trace, steps) && i < |steps|
    ensures |trace| == |steps| + 1 && Enabled(trace[i], steps[i]) && trace[i + 1] == Next(trace[i], steps[i])
  {
    hide Enabled, Next;
  }

  // ----- recovery

  /** The thread is between operations: finished, not begun, watching, or sleeping in the recovery loop. */
  predicate Idle(pc: Pc) {
    || pc.Done?
    || pc == Run(SetDesired) || pc == Stop(StopWait) || (pc.Upgrade? && pc.up.UpgradeWait?)
    || (pc.Term? && (pc.term.Alive? || pc.term.TermRetire?))
    || (pc.Monitor? && !pc.monitor.MonitorUnready? && !pc.monitor.MonitorSchedule?)
    || OwnsSlot(pc)
  }

  /**
   No recovery is lost: whenever no operation is in flight, a core that should run and is either not ready
   or has no active generation has a recovery loop at work. Two flags stand for the ways to lose one: an upgrade
   whose rollback failed too, and readiness raised for a generation retired since it was checked.
   */
  lemma NoLostRecovery(trace: seq<State>, steps: seq<Step>, i: nat)
    requires Execution(trace, steps) && i < |trace|
    requires forall t :: 0 <= t < |trace[i].threads| ==> Idle(trace[i].threads[t])
    ensures var m := trace[i].memory;
      m.desired && !m.abandoned && !m.stale && (!m.ready || m.active == 0) ==>
        exists t :: 0 <= t < |trace[i].threads| && OwnsSlot(trace[i].threads[t])
  {
    InvAlways(trace, steps, i);
    var s := trace[i];
    var m := s.memory;
    hide LockKept, QuietKept, DarkKept, BoundsDrawn, GenerationsKept;
    if m.desired && !m.abandoned && !m.stale && (!m.ready || m.active == 0) {
      if m.ready {
        var t :| 0 <= t < |s.threads| && Clearing(s.threads[t]);
        IdleOwesNothing(s.threads[t]);
      }
      if m.slot.Some? {
        assert OwnsSlot(s.threads[m.slot.value]);
      } else {
        var t :| 0 <= t < |s.threads| && Responsible(s.threads[t]);
        IdleOwesNothing(s.threads[t]);
      }
    }
  }

  lemma IdleOwesNothing(pc: Pc)
    requires Idle(pc)
    ensures !Clearing(pc) && (Responsible(pc) ==> OwnsSlot(pc))
  {
  }

  /**
   Once every accepted event has lowered readiness, "ready without an active core" happens exactly when it is stale.
   */
  lemma ReadinessIsHonest(trace: seq<State>, steps: seq<Step>, i: nat)
    requires Execution(trace, steps) && i < |trace|
    requires forall t :: 0 <= t < |trace[i].threads| ==> !Clearing(trace[i].threads[t])
    ensures var m := trace[i].memory; m.stale <==> m.ready && m.active == 0
  {
    InvAlways(trace, steps, i);
    hide Clearing, LockKept, SlotKept, QuietKept, NotLost, DarkKept, BoundsDrawn, GenerationsKept;
  }

  /** The generation a thread last saw active and is about to call ready. */
  function Trusted(pc: Pc): Option<Generation> {
    if pc.Start? && (pc.stage.Announce? || pc.stage.KillOld? || pc.stage.ChooseMode? || pc.stage.CallService?
        || pc.stage.ServiceReady?
                     || pc.stage.MarkReady?) then Some(pc.generation)
    else if pc.Upgrade? && pc.alive && (pc.up.RestoreDesired? || pc.up.RestoreReady?) then Some(pc.saved.generation)
    else None
  }

  /** The thread is about to try the compare-exchange of a termination or monitor event. */
  predicate Event(pc: Pc, g: Generation) {
    pc == Term(TermRetire, g) || (pc.Monitor? && pc.monitor.MonitorRetire? && pc.watched == g)
  }

  /** Step `j` is an event of `g` accepted on some thread other than `t`. */
  ghost predicate Accepted(s: State, step: Step, t: nat, g: Generation) {
    && step.Act? && step.thread != t && step.thread < |s.threads|
    && Event(s.threads[step.thread], g) && s.memory.active == g
  }

  lemma TrustIsFresh(m: Memory, t: nat, next: nat, pc: Pc, choice: nat)
    requires Own(m, t, pc)
    ensures var move := MoveOf(m, t, next, pc, choice);
      && (Trusted(move.pc).Some? ==>
            (move.memory.active == Trusted(move.pc).value
             || (Trusted(pc) == Trusted(move.pc) && move.memory.active == m.active)))
      && Trusted(move.spawned).None?
  {
    hide Own, Trusted, StartMove, RunMove, LoopMove, TermMove, MonitorMove, StopMove, UpgradeMove;
    match pc
    case Done => RestTrusts(End);
    case Release(after) => RestTrusts(after);
    case Start(caller, stage, g) => StartTrust(m, caller, stage, g, choice != 0);
    case Run(at) => RunTrusts(m, t, next, at);
    case Loop(at) => LoopTrusts(m, t, next, at);
    case Term(at, g) => TermTrusts(m, next, at, g);
    case Monitor(at, g, failures) => MonitorTrusts(m, next, at, g, failures, choice);
    case Stop(at) => StopTrusts(m, t, at);
    case Upgrade(at, saved, alive, retry) => UpgradeTrust(m, t, next, at, saved, alive, retry, choice);
  }

  predicate TrustsNothing(move: Move) { Trusted(move.pc).None? && Trusted(move.spawned).None? }

  lemma RestTrusts(after: After)
    ensures Trusted(Done).None? && Trusted(Resumed(after)).None?
  {
  }

  lemma RunTrusts(m: Memory, t: nat, next: nat, at: RunAt)
    ensures TrustsNothing(RunMove(m, t, next, at))
  {
  }

  lemma LoopTrusts(m: Memory, t: nat, next: nat, at: LoopAt)
    ensures TrustsNothing(LoopMove(m, t, next, at))
  {
  }

  lemma TermTrusts(m: Memory, next: nat, at: TermAt, g: Generation)
    ensures TrustsNothing(TermMove(m, next, at, g))
  {
  }

  lemma MonitorTrusts(m: Memory, next: nat, at: MonitorAt, g: Generation, failures: nat, choice: nat)
    ensures TrustsNothing(MonitorMove(m, next, at, g, failures, choice))
  {
  }

  lemma StopTrusts(m: Memory, t: nat, at: StopAt)
    ensures TrustsNothing(StopMove(m, t, at))
  {
  }

  lemma StartTrust(m: Memory, caller: Caller, stage: Stage, g: Generation, ok: bool)
    ensures var move := StartMove(m, caller, stage, g, ok);
      && (Trusted(move.pc).Some? ==>
            (move.memory.active == Trusted(move.pc).value
             || (Trusted(Start(caller, stage, g)) == Trusted(move.pc) && move.memory.active == m.active)))
      && Trusted(move.spawned).None?
  {
  }

  lemma UpgradeTrust(m: Memory, t: nat, next: nat, at: UpgradeAt, saved: Saved, alive: bool, retry: bool, choice: nat)
    ensures var pc := Upgrade(at, saved, alive, retry); var move := UpgradeMove(m, t, next, pc, choice);
      && (Trusted(move.pc).Some? ==>
            (move.memory.active == Trusted(move.pc).value
             || (Trusted(pc) == Trusted(move.pc) && move.memory.active == m.active)))
      && Trusted(move.spawned).None?
  {
  }

  /** Outside the operation lock only an accepted event changes the active generation. */
  lemma ActiveOutsideLock(m: Memory, t: nat, next: nat, pc: Pc, choice: nat)
    requires !Holds(pc)
    ensures var active := MoveOf(m, t, next, pc, choice).memory.active;
      active == m.active || (Event(pc, m.active) && active == 0)
  {
    match pc
    case Done =>
    case Release(after) =>
    case Start(caller, stage, g) =>
    case Run(at) =>
    case Loop(at) =>
    case Term(at, g) =>
    case Monitor(at, g, failures) =>
    case Stop(at) =>
    case Upgrade(at, saved, alive, retry) =>
  }

  lemma TrustHolds(pc: Pc)
    ensures Trusted(pc).Some? ==> Holds(pc)
  {
  }

  lemma TrustStep(s: State, step: Step, t: nat)
    requires Inv(s) && Enabled(s, step)
    requires t < |Next(s, step).threads| && Trusted(Next(s, step).threads[t]).Some?
    ensures var g := Trusted(Next(s, step).threads[t]).value;
      || Next(s, step).memory.active == g
      || (t < |s.threads| && Trusted(s.threads[t]) == Some(g)
          && (s.memory.active != g || Accepted(s, step, t, g)))
  {
    hide Trusted, Holds, MoveOf, Event;
    match step
    case Arrive(request) =>
      assert Trusted(Arrived(request)).None? by { ArrivalTrusted(request); }
    case Act(u, choice) =>
      OwnFromInv(s, u);
      TrustIsFresh(s.memory, u, |s.threads|, s.threads[u], choice);
      var move := MoveOf(s.memory, u, |s.threads|, s.threads[u], choice);
      assert Moved(s, u, move, Next(s, step));
      if t < |s.threads| && t != u {
        TrustHolds(s.threads[t]);
        ActiveOutsideLock(s.memory, u, |s.threads|, s.threads[u], choice);
      }
  }

  lemma ArrivalTrusted(request: Request)
    ensures Trusted(Arrived(request)).None?
  {
  }

  /**
   Readiness only ever turns stale because an event of the very generation was accepted, on another thread,
   after the raising thread had last seen that generation active.
   */
  lemma {:induction false} StaleNeedsAnEventInBetween(trace: seq<State>, steps: seq<Step>, i: nat, t: nat)
    requires Execution(trace, steps) && i < |trace|
    requires t < |trace[i].threads| && Trusted(trace[i].threads[t]).Some?
    requires trace[i].memory.active != Trusted(trace[i].threads[t]).value
    ensures var g := Trusted(trace[i].threads[t]).value;
      exists j :: 0 <= j < i && t < |trace[j].threads| && Trusted(trace[j].threads[t]) == Some(g)
                  && Accepted(trace[j], steps[j], t, g)
  {
    hide Next, Enabled, Inv, Trusted, Accepted;
    if i == 0 {
    } else {
      InvAlways(trace, steps, i - 1);
      TrustStep(trace[i - 1], steps[i - 1], t);
      var g := Trusted(trace[i].threads[t]).value;
      if Accepted(trace[i - 1], steps[i - 1], t, g) {
      } else {
        StaleNeedsAnEventInBetween(trace, steps, i - 1, t);
      }
    }
  }

  // ----- generations and events

  /** Retired generations stay retired, and none is retired twice. */
  lemma {:induction false} RetiredOnceForAll(trace: seq<State>, steps: seq<Step>, i: nat, j: nat)
    requires Execution(trace, steps) && i <= j < |trace|
    ensures var r := trace[j].memory.retired;
      && trace[i].memory.retired <= r
      && (forall a, b :: 0 <= a < b < |r| ==> r[a] != r[b])
      && trace[j].memory.active !in r && trace[i].memory.generation <= trace[j].memory.generation
  {
    hide Next, Enabled, Inv;
    InvAlways(trace, steps, j);
    NoDuplicates(trace[j]);
    if i < j {
      RetiredOnceForAll(trace, steps, i, j - 1);
      InvAlways(trace, steps, j - 1);
      HistoryGrows(trace[j - 1], steps[j - 1]);
    }
  }

  lemma NoDuplicates(s: State)
    requires Inv(s)
    ensures var r := s.memory.retired;
      && (forall a, b :: 0 <= a < b < |r| ==> r[a] != r[b])
      && s.memory.active !in r
  {
    hide LockKept, SlotKept, QuietKept, NotLost, DarkKept, ReadyBacked, BoundsDrawn;
  }

  lemma HistoryGrows(s: State, step: Step)
    requires Inv(s) && Enabled(s, step)
    ensures s.memory.retired <= Next(s, step).memory.retired
    ensures s.memory.generation <= Next(s, step).memory.generation
  {
    if step.Act? {
      OwnFromInv(s, step.thread);
      hide Inv, MoveOf, Own, LockShape, SlotShape, CareShape, ReadyShape, Bound, Holds;
      AnyShape(s.memory, step.thread, |s.threads|, s.threads[step.thread], step.choice);
    }
  }

  /** An event of an older generation changes nothing at all: its thread just ends. */
  lemma OldEventsAreIgnored(trace: seq<State>, steps: seq<Step>, i: nat, g: Generation)
    requires Execution(trace, steps) && i < |steps|
    requires steps[i].Act? && steps[i].thread < |trace[i].threads|
    requires Event(trace[i].threads[steps[i].thread], g) && g != trace[i].memory.generation
    ensures trace[i + 1] == trace[i].(threads := trace[i].threads[steps[i].thread := Done])
  {
    InvAlways(trace, steps, i);
    hide LockKept, SlotKept, QuietKept, NotLost, DarkKept, ReadyBacked;
    var s, t := trace[i], steps[i].thread;
    assert Bound(s.threads[t]) == Some(g);
    assert s.memory.active != g;
    assert s.threads[t := Done] + [] == s.threads[t := Done];
  }

  /** The thread's event was accepted and it still has to write. */
  predicate Writing(pc: Pc, g: Generation) {
    pc == Term(TermTake, g) || pc == Term(TermUnready, g)
    || (pc.Monitor? && pc.monitor.MonitorUnready? && pc.watched == g)
  }

  lemma WritingMove(m: Memory, t: nat, next: nat, pc: Pc, choice: nat, g: Generation)
    ensures !Writing(MoveOf(m, t, next, pc, choice).spawned, g)
    ensures Writing(MoveOf(m, t, next, pc, choice).pc, g) ==> Writing(pc, g) || (Event(pc, g) && m.active == g)
  {
    hide StartMove, UpgradeMove;
    match pc
    case Done =>
    case Release(after) =>
    case Start(caller, stage, h) => StartDoesNotWrite(m, caller, stage, h, choice != 0, g);
    case Run(at) =>
    case Loop(at) =>
    case Term(at, h) =>
    case Monitor(at, h, failures) =>
    case Stop(at) =>
    case Upgrade(at, saved, alive, retry) => UpgradeDoesNotWrite(m, t, next, at, saved, alive, retry, choice, g);
  }

  lemma StartDoesNotWrite(m: Memory, caller: Caller, stage: Stage, h: Generation, ok: bool, g: Generation)
    ensures var move := StartMove(m, caller, stage, h, ok); !Writing(move.pc, g) && !Writing(move.spawned, g)
  {
  }

  lemma UpgradeDoesNotWrite(
      m: Memory, t: nat, next: nat, at: UpgradeAt, saved: Saved, alive: bool, retry: bool, choice: nat, g: Generation)
    ensures var move := UpgradeMove(m, t, next, Upgrade(at, saved, alive, retry), choice);
      !Writing(move.pc, g) && !Writing(move.spawned, g)
  {
  }

  lemma WritingStep(s: State, step: Step, t: nat, g: Generation)
    requires Inv(s) && Enabled(s, step)
    requires t < |Next(s, step).threads| && Writing(Next(s, step).threads[t], g)
    ensures t < |s.threads|
    ensures Writing(s.threads[t], g) || (
              && step.Act? && step.thread == t && Event(s.threads[t], g)
              && s.memory.active == s.memory.generation == g && g in Next(s, step).memory.retired)
  {
    if step.Act? {
      var u := step.thread;
      WritingMove(s.memory, u, |s.threads|, s.threads[u], step.choice, g);
      if u == t && !Writing(s.threads[t], g) {
        EventDraws(s, t, g);
        AcceptanceRetires(s.memory, t, |s.threads|, s.threads[t], step.choice, g);
      }
      hide MoveOf, Inv, Writing, Event;
      assert Moved(s, u, MoveOf(s.memory, u, |s.threads|, s.threads[u], step.choice), Next(s, step));
    }
  }

  lemma EventDraws(s: State, t: nat, g: Generation)
    requires Inv(s) && t < |s.threads| && Event(s.threads[t], g) && s.memory.active == g
    ensures s.memory.generation == g
  {
    hide LockKept, SlotKept, QuietKept, NotLost, DarkKept, ReadyBacked;
    assert Bound(s.threads[t]) == Some(g);
  }

  lemma AcceptanceRetires(m: Memory, t: nat, next: nat, pc: Pc, choice: nat, g: Generation)
    requires Event(pc, g) && m.active == g
    ensures g in MoveOf(m, t, next, pc, choice).memory.retired
  {
  }

  /**
   A thread that takes the sidecar or lowers readiness for generation g had its compare-exchange accepted while g
   was the newest generation; so it can only ever hit a newer core if that one was started in the meantime.
   */
  lemma {:induction false} WritesFollowAcceptance(trace: seq<State>, steps: seq<Step>, i: nat, t: nat, g: Generation)
    returns (j: nat)
    requires Execution(trace, steps) && i < |trace|
    requires t < |trace[i].threads| && Writing(trace[i].threads[t], g)
    ensures j < i && steps[j].Act? && steps[j].thread == t && t < |trace[j].threads|
    ensures Event(trace[j].threads[t], g) && trace[j].memory.active == trace[j].memory.generation == g
    ensures g in trace[j + 1].memory.retired
  {
    assert i > 0;
    ExecutionStep(trace, steps, i - 1);
    hide *;
    InvAlways(trace, steps, i - 1);
    WritingStep(trace[i - 1], steps[i - 1], t, g);
    if t < |trace[i - 1].threads| && Writing(trace[i - 1].threads[t], g) {
      j := WritesFollowAcceptance(trace, steps, i - 1, t, g);
    } else {
      j := i - 1;
    }
  }
}
