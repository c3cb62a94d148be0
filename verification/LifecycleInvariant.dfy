/** What every reachable lifecycle state satisfies. */
module LifecycleInvariant {
  import opened Wrappers
  import opened LifecycleMachine

  // ----- reading a thread's position

  /** The thread holds the operation lock. */
  predicate Holds(pc: Pc) {
    || pc.Release? || pc.Start?
    || (pc.Loop? && (pc.loop.Locked? || pc.loop.LockedReady?))
    || (pc.Stop? && !pc.stop.StopWait?)
    || (pc.Upgrade? && !pc.up.UpgradeWait?)
  }

  /** The thread runs the recovery loop and has not cleared the slot yet. */
  predicate OwnsSlot(pc: Pc) {
    || (pc.Loop? && !pc.loop.Tail? && !pc.loop.TailReady? && !pc.loop.TailSchedule?)
    || (pc.Start? && pc.caller.ByRecovery?)
    || (pc.Release? && (pc.after.Clear? || pc.after.Again?))
  }

  /** The thread will mark the core ready, schedule a recovery, or find one of the flags changed. */
  predicate Responsible(pc: Pc) {
    || (pc.Release? && pc.after.Failed?)
    || (pc.Start? && !pc.stage.ServiceWatch?)
    || (pc.Run? && !pc.run.SetDesired?)
    || (pc.Loop? && (pc.loop.Tail? || pc.loop.TailReady? || pc.loop.TailSchedule?))
    || (pc.Term? && (pc.term.TermDesired? || pc.term.TermSchedule?))
    || (pc.Monitor? && pc.monitor.MonitorSchedule?)
    || (pc.Upgrade? && (|| (pc.up.RestoreReady? && pc.saved.desired)
                        || (pc.up.RestoreFollow? && pc.saved.desired && !pc.alive)
                        || pc.up.RollbackDesired? || pc.up.Abandon?))
  }

  /** The lock holder switched `desired` off; since then only a starter waiting for the lock can have raised it. */
  predicate Quiet(pc: Pc) {
    || (pc.Stop? && (pc.stop.StopReady? || pc.stop.StopActive? || pc.stop.StopKill?))
    || (pc.Upgrade? && (
          || pc.up.SaveReady? || pc.up.SaveActive? || pc.up.SaveMode? || pc.up.Download?
          || pc.up.RestoreCheck? || pc.up.RestoreDesired?
          || ((pc.up.RestoreReady? || pc.up.RestoreFollow?) && !pc.saved.desired)
          || pc.up.SelfActive? || pc.up.SelfReady? || pc.up.SelfTake?
          || pc.up.ActivateCheck? || pc.up.ActivateDesired? || pc.up.RollbackFiles?))
  }

  /** The lock holder lowered readiness and has not raised it since. */
  predicate Dark(pc: Pc) {
    || (pc.Start? && !pc.stage.ServiceWatch? && (pc.caller.ByUpgrade? || (!pc.stage.Generate? && !pc.stage.Unready?)))
    || (pc.Stop? && (pc.stop.StopActive? || pc.stop.StopKill?))
    || (pc.Upgrade? && (pc.up.SelfTake? || pc.up.ActivateCheck? || pc.up.ActivateDesired? || pc.up.RollbackFiles?
                        || pc.up.Abandon?))
  }

  /** The thread took the active generation away and has yet to lower readiness. */
  predicate Clearing(pc: Pc) {
    || (pc.Term? && (pc.term.TermTake? || pc.term.TermUnready?))
    || (pc.Monitor? && pc.monitor.MonitorUnready?)
    || (pc.Upgrade? && pc.up.SelfReady?)
  }

  /** The generation a thread works for, if it has one. */
  function Bound(pc: Pc): Option<Generation> {
    if pc.Start? && !pc.stage.Generate? && !pc.stage.Unready? && !pc.stage.DrawGeneration? then Some(pc.generation)
    else if pc.Term? then Some(pc.child)
    else if pc.Monitor? then Some(pc.watched)
    else if pc.Upgrade? && pc.alive && (pc.up.RestoreDesired? || pc.up.RestoreReady? || pc.up.RestoreFollow?)
      then Some(pc.saved.generation)
    else None
  }

  // ----- the invariant

  ghost predicate LockKept(lock: Option<nat>, threads: seq<Pc>) {
    && (lock.Some? ==> lock.value < |threads| && Holds(threads[lock.value]))
    && (forall t :: 0 <= t < |threads| && Holds(threads[t]) ==> lock == Some(t))
  }

  ghost predicate SlotKept(slot: Option<nat>, threads: seq<Pc>) {
    && (slot.Some? ==> slot.value < |threads| && OwnsSlot(threads[slot.value]))
    && (forall t :: 0 <= t < |threads| && OwnsSlot(threads[t]) ==> slot == Some(t))
  }

  ghost predicate SomeoneWaits(threads: seq<Pc>) {
    exists u :: 0 <= u < |threads| && threads[u] == Run(RunWait)
  }

  ghost predicate SomeoneResponsible(threads: seq<Pc>) {
    exists u :: 0 <= u < |threads| && Responsible(threads[u])
  }

  ghost predicate SomeoneClears(threads: seq<Pc>) {
    exists u :: 0 <= u < |threads| && Clearing(threads[u])
  }

  ghost predicate QuietKept(desired: bool, threads: seq<Pc>) {
    desired ==> forall t :: 0 <= t < |threads| && Quiet(threads[t]) ==> SomeoneWaits(threads)
  }

  ghost predicate NotLost(m: Memory, threads: seq<Pc>) {
    m.desired && !m.ready && !m.abandoned ==> m.slot.Some? || SomeoneResponsible(threads)
  }

  ghost predicate DarkKept(ready: bool, threads: seq<Pc>) {
    ready ==> forall t :: 0 <= t < |threads| ==> !Dark(threads[t])
  }

  ghost predicate ReadyBacked(m: Memory, threads: seq<Pc>) {
    && (m.stale ==> m.ready && m.active == 0)
    && (m.abandoned ==> !m.ready)
    && (m.ready && m.active == 0 && !m.stale ==> SomeoneClears(threads))
  }

  ghost predicate BoundsDrawn(generation: Generation, threads: seq<Pc>) {
    forall t :: 0 <= t < |threads| && Bound(threads[t]).Some? ==>
      1 <= Bound(threads[t]).value <= generation && (Holds(threads[t]) ==> Bound(threads[t]).value == generation)
  }

  ghost predicate GenerationsKept(m: Memory) {
    && (m.active == 0 || m.active == m.generation)
    && (m.sidecar.Some? ==> 1 <= m.sidecar.value <= m.generation)
    && (forall g :: g in m.retired ==> 1 <= g <= m.generation && g != m.active)
    && (forall i, j :: 0 <= i < j < |m.retired| ==> m.retired[i] != m.retired[j])
  }

  ghost predicate Inv(s: State) {
    && LockKept(s.memory.lock, s.threads)
    && SlotKept(s.memory.slot, s.threads)
    && QuietKept(s.memory.desired, s.threads)
    && NotLost(s.memory, s.threads)
    && DarkKept(s.memory.ready, s.threads)
    && ReadyBacked(s.memory, s.threads)
    && BoundsDrawn(s.memory.generation, s.threads)
    && GenerationsKept(s.memory)
  }

  // ----- what one acting thread does, without looking at the others

  /** What the invariant says about the acting thread alone. */
  ghost predicate Own(m: Memory, t: nat, pc: Pc) {
    && CanAct(m, pc)
    && (Holds(pc) <==> m.lock == Some(t))
    && (OwnsSlot(pc) <==> m.slot == Some(t))
    && (m.ready ==> !Dark(pc))
    && (m.stale ==> m.ready && m.active == 0)
    && (m.abandoned ==> !m.ready)
    && (m.active == 0 || m.active == m.generation)
    && (Bound(pc).Some? ==>
          1 <= Bound(pc).value <= m.generation && (Holds(pc) ==> Bound(pc).value == m.generation))
  }

  ghost predicate LockShape(m: Memory, t: nat, pc: Pc, move: Move) {
    && !Holds(move.spawned)
    && (|| (move.memory.lock == m.lock && Holds(move.pc) == Holds(pc))
        || (m.lock.None? && move.memory.lock == Some(t) && Holds(move.pc))
        || (Holds(pc) && !Holds(move.pc) && move.memory.lock.None?))
  }

  ghost predicate SlotShape(m: Memory, next: nat, pc: Pc, move: Move) {
    || (move.memory.slot == m.slot && OwnsSlot(move.pc) == OwnsSlot(pc) && !OwnsSlot(move.spawned))
    || (OwnsSlot(pc) && !OwnsSlot(move.pc) && move.memory.slot.None? && !OwnsSlot(move.spawned) && Responsible(move.pc))
    || (m.slot.None? && move.memory.slot == Some(next) && !OwnsSlot(move.pc) && OwnsSlot(move.spawned))
  }

  ghost predicate CareShape(m: Memory, pc: Pc, move: Move) {
    var m' := move.memory;
    && !Quiet(move.spawned)
    && (Quiet(move.pc) ==> !m'.desired || (Quiet(pc) && m.desired))
    && (!Holds(pc) && m'.desired ==> m.desired || move.pc == Run(RunWait))
    && (m'.desired && !m'.ready && !m'.abandoned ==>
          || Responsible(move.pc) || m'.slot.Some?
          || (Quiet(pc) && m.desired)
          || (m.desired && !m.ready && !m.abandoned && !Responsible(pc)))
  }

  ghost predicate ReadyShape(m: Memory, pc: Pc, move: Move) {
    var m' := move.memory;
    && !Dark(move.spawned)
    && (m'.ready ==> !Dark(move.pc))
    && (m'.ready ==> m.ready || Holds(pc))
    && (m'.stale ==> m'.ready && m'.active == 0)
    && (m'.abandoned ==> !m'.ready)
    && (m'.ready && m'.active == 0 && !m'.stale ==>
          Clearing(move.pc) || (m.ready && m.active == 0 && !m.stale && !Clearing(pc)))
  }

  ghost predicate GenerationShape(m: Memory, pc: Pc, move: Move) {
    var m' := move.memory;
    && (m'.generation == m.generation || (m'.generation == m.generation + 1 && Holds(pc) && Holds(move.pc)))
    && (Bound(move.pc).Some? ==>
          1 <= Bound(move.pc).value <= m'.generation && (Holds(move.pc) ==> Bound(move.pc).value == m'.generation))
    && (Bound(move.spawned).Some? ==> 1 <= Bound(move.spawned).value <= m'.generation && !Holds(move.spawned))
    && (m'.active == 0 || m'.active == m'.generation)
    && (|| (m'.retired == m.retired && (m'.active == m.active || m'.active == 0 || m'.generation > m.generation))
        || (m'.retired == m.retired + [m.active] && m'.active == 0 && Bound(pc) == Some(m.active)))
    && (m'.sidecar == m.sidecar || m'.sidecar.None? || m'.sidecar == Bound(pc))
  }

  ghost predicate Shape(m: Memory, t: nat, next: nat, pc: Pc, move: Move) {
    && LockShape(m, t, pc, move) && SlotShape(m, next, pc, move) && CareShape(m, pc, move)
    && ReadyShape(m, pc, move) && GenerationShape(m, pc, move)
  }

  lemma ReleaseShape(m: Memory, t: nat, next: nat, after: After)
    requires Own(m, t, Release(after))
    ensures Shape(m, t, next, Release(after), MoveOf(m, t, next, Release(after), 0))
  {
    match after { case End => case Failed => case Clear => case Again => }
  }

  lemma StartHolding(m: Memory, t: nat, next: nat, caller: Caller, stage: Stage, g: Generation, ok: bool)
    requires Own(m, t, Start(caller, stage, g))
    ensures var pc := Start(caller, stage, g); var move := StartMove(m, caller, stage, g, ok);
        LockShape(m, t, pc, move) && SlotShape(m, next, pc, move)
  {
    hide Quiet, Dark, Clearing, Bound;
  }

  lemma StartCare(m: Memory, t: nat, next: nat, caller: Caller, stage: Stage, g: Generation, ok: bool)
    requires Own(m, t, Start(caller, stage, g))
    ensures var pc := Start(caller, stage, g); var move := StartMove(m, caller, stage, g, ok); CareShape(m, pc, move)
  {
    hide Dark, Clearing, Bound;
  }

  lemma StartReadiness(m: Memory, t: nat, next: nat, caller: Caller, stage: Stage, g: Generation, ok: bool)
    requires Own(m, t, Start(caller, stage, g))
    ensures var pc := Start(caller, stage, g); var move := StartMove(m, caller, stage, g, ok); ReadyShape(m, pc, move)
  {
    hide Quiet, Responsible, OwnsSlot;
  }

  lemma StartGenerations(m: Memory, t: nat, next: nat, caller: Caller, stage: Stage, g: Generation, ok: bool)
    requires Own(m, t, Start(caller, stage, g))
    ensures var pc := Start(caller, stage, g); var move := StartMove(m, caller, stage, g, ok);
        GenerationShape(m, pc, move)
  {
    hide Quiet, Responsible, OwnsSlot, Dark, Clearing;
  }

  lemma StartShape(m: Memory, t: nat, next: nat, caller: Caller, stage: Stage, g: Generation, ok: bool)
    requires Own(m, t, Start(caller, stage, g))
    ensures var pc := Start(caller, stage, g); Shape(m, t, next, pc, StartMove(m, caller, stage, g, ok))
  {
    hide LockShape, SlotShape, CareShape, ReadyShape, GenerationShape, Own, StartMove;
    StartHolding(m, t, next, caller, stage, g, ok);
    StartCare(m, t, next, caller, stage, g, ok);
    StartReadiness(m, t, next, caller, stage, g, ok);
    StartGenerations(m, t, next, caller, stage, g, ok);
  }

  lemma RunHolding(m: Memory, t: nat, next: nat, at: RunAt)
    requires Own(m, t, Run(at))
    ensures var pc := Run(at); var move := RunMove(m, t, next, at);
      LockShape(m, t, pc, move) && SlotShape(m, next, pc, move) && CareShape(m, pc, move)
  {
    hide Dark, Clearing, Bound;
  }

  lemma RunGenerations(m: Memory, t: nat, next: nat, at: RunAt)
    requires Own(m, t, Run(at))
    ensures var pc := Run(at); var move := RunMove(m, t, next, at);
      ReadyShape(m, pc, move) && GenerationShape(m, pc, move)
  {
    hide Quiet, Responsible, OwnsSlot;
  }

  lemma RunShape(m: Memory, t: nat, next: nat, at: RunAt)
    requires Own(m, t, Run(at))
    ensures Shape(m, t, next, Run(at), RunMove(m, t, next, at))
  {
    hide LockShape, SlotShape, CareShape, ReadyShape, GenerationShape, Own, RunMove;
    RunHolding(m, t, next, at);
    RunGenerations(m, t, next, at);
  }

  lemma LoopHolding(m: Memory, t: nat, next: nat, at: LoopAt)
    requires Own(m, t, Loop(at))
    ensures var pc := Loop(at); var move := LoopMove(m, t, next, at);
        LockShape(m, t, pc, move) && SlotShape(m, next, pc, move)
  {
    hide Quiet, Dark, Clearing, Bound;
  }

  lemma LoopCare(m: Memory, t: nat, next: nat, at: LoopAt)
    requires Own(m, t, Loop(at))
    ensures var pc := Loop(at); var move := LoopMove(m, t, next, at); CareShape(m, pc, move)
  {
    hide Dark, Clearing, Bound;
  }

  lemma LoopReadiness(m: Memory, t: nat, next: nat, at: LoopAt)
    requires Own(m, t, Loop(at))
    ensures var pc := Loop(at); var move := LoopMove(m, t, next, at); ReadyShape(m, pc, move)
  {
    hide Quiet, Responsible, OwnsSlot;
  }

  lemma LoopGenerations(m: Memory, t: nat, next: nat, at: LoopAt)
    requires Own(m, t, Loop(at))
    ensures var pc := Loop(at); var move := LoopMove(m, t, next, at); GenerationShape(m, pc, move)
  {
    hide Quiet, Responsible, OwnsSlot, Dark, Clearing;
  }

  lemma LoopShape(m: Memory, t: nat, next: nat, at: LoopAt)
    requires Own(m, t, Loop(at))
    ensures var pc := Loop(at); Shape(m, t, next, pc, LoopMove(m, t, next, at))
  {
    hide LockShape, SlotShape, CareShape, ReadyShape, GenerationShape, Own, LoopMove;
    LoopHolding(m, t, next, at);
    LoopCare(m, t, next, at);
    LoopReadiness(m, t, next, at);
    LoopGenerations(m, t, next, at);
  }

  lemma TermHolding(m: Memory, t: nat, next: nat, at: TermAt, g: Generation)
    requires Own(m, t, Term(at, g))
    ensures var pc := Term(at, g); var move := TermMove(m, next, at, g);
      LockShape(m, t, pc, move) && SlotShape(m, next, pc, move) && CareShape(m, pc, move)
  {
    hide Dark, Clearing, Bound;
  }

  lemma TermGenerations(m: Memory, t: nat, next: nat, at: TermAt, g: Generation)
    requires Own(m, t, Term(at, g))
    ensures var pc := Term(at, g); var move := TermMove(m, next, at, g);
      ReadyShape(m, pc, move) && GenerationShape(m, pc, move)
  {
    hide Quiet, Responsible, OwnsSlot;
  }

  lemma TermShape(m: Memory, t: nat, next: nat, at: TermAt, g: Generation)
    requires Own(m, t, Term(at, g))
    ensures Shape(m, t, next, Term(at, g), TermMove(m, next, at, g))
  {
    hide LockShape, SlotShape, CareShape, ReadyShape, GenerationShape, Own, TermMove;
    TermHolding(m, t, next, at, g);
    TermGenerations(m, t, next, at, g);
  }

  lemma MonitorHolding(m: Memory, t: nat, next: nat, at: MonitorAt, g: Generation, failures: nat, choice: nat)
    requires Own(m, t, Monitor(at, g, failures))
    ensures var pc := Monitor(at, g, failures); var move := MonitorMove(m, next, at, g, failures, choice);
      LockShape(m, t, pc, move) && SlotShape(m, next, pc, move) && CareShape(m, pc, move)
  {
    hide Dark, Clearing, Bound;
  }

  lemma MonitorGenerations(m: Memory, t: nat, next: nat, at: MonitorAt, g: Generation, failures: nat, choice: nat)
    requires Own(m, t, Monitor(at, g, failures))
    ensures var pc := Monitor(at, g, failures); var move := MonitorMove(m, next, at, g, failures, choice);
      ReadyShape(m, pc, move) && GenerationShape(m, pc, move)
  {
    hide Quiet, Responsible, OwnsSlot;
  }

  lemma MonitorShape(m: Memory, t: nat, next: nat, at: MonitorAt, g: Generation, failures: nat, choice: nat)
    requires Own(m, t, Monitor(at, g, failures))
    ensures Shape(m, t, next, Monitor(at, g, failures), MonitorMove(m, next, at, g, failures, choice))
  {
    hide LockShape, SlotShape, CareShape, ReadyShape, GenerationShape, Own, MonitorMove;
    MonitorHolding(m, t, next, at, g, failures, choice);
    MonitorGenerations(m, t, next, at, g, failures, choice);
  }

  lemma StopHolding(m: Memory, t: nat, next: nat, at: StopAt)
    requires Own(m, t, Stop(at))
    ensures var pc := Stop(at); var move := StopMove(m, t, at);
      LockShape(m, t, pc, move) && SlotShape(m, next, pc, move) && CareShape(m, pc, move)
  {
    hide Dark, Clearing, Bound;
  }

  lemma StopGenerations(m: Memory, t: nat, next: nat, at: StopAt)
    requires Own(m, t, Stop(at))
    ensures var pc := Stop(at); var move := StopMove(m, t, at);
      ReadyShape(m, pc, move) && GenerationShape(m, pc, move)
  {
    hide Quiet, Responsible, OwnsSlot;
  }

  lemma StopShape(m: Memory, t: nat, next: nat, at: StopAt)
    requires Own(m, t, Stop(at))
    ensures Shape(m, t, next, Stop(at), StopMove(m, t, at))
  {
    hide LockShape, SlotShape, CareShape, ReadyShape, GenerationShape, Own, StopMove;
    StopHolding(m, t, next, at);
    StopGenerations(m, t, next, at);
  }

  lemma UpgradeHolding(m: Memory, t: nat, next: nat, at: UpgradeAt, saved: Saved, alive: bool, retry: bool, choice: nat)
    requires Own(m, t, Upgrade(at, saved, alive, retry))
    ensures var pc := Upgrade(at, saved, alive, retry); var move := UpgradeMove(m, t, next, pc, choice);
        LockShape(m, t, pc, move) && SlotShape(m, next, pc, move)
  {
    hide Quiet, Dark, Clearing, Bound;
  }

  lemma UpgradeCare(m: Memory, t: nat, next: nat, at: UpgradeAt, saved: Saved, alive: bool, retry: bool, choice: nat)
    requires Own(m, t, Upgrade(at, saved, alive, retry))
    ensures var pc := Upgrade(at, saved, alive, retry); var move := UpgradeMove(m, t, next, pc, choice);
        CareShape(m, pc, move)
  {
    hide Dark, Clearing, Bound;
  }

  lemma RestoreReadiness(m: Memory, t: nat, next: nat, saved: Saved, alive: bool, retry: bool, choice: nat)
    requires Own(m, t, Upgrade(RestoreReady, saved, alive, retry))
    ensures var pc := Upgrade(RestoreReady, saved, alive, retry); var move := UpgradeMove(m, t, next, pc, choice);
        ReadyShape(m, pc, move)
  {
    hide Quiet, Responsible, OwnsSlot;
  }

  lemma OtherReadiness(m: Memory, t: nat, next: nat, at: UpgradeAt, saved: Saved, alive: bool, retry: bool,
      choice: nat)
    requires Own(m, t, Upgrade(at, saved, alive, retry)) && !at.RestoreReady?
    ensures var pc := Upgrade(at, saved, alive, retry); var move := UpgradeMove(m, t, next, pc, choice);
        ReadyShape(m, pc, move)
  {
    hide Quiet, Responsible, OwnsSlot, Bound;
  }

  lemma UpgradeReadiness(m: Memory, t: nat, next: nat, at: UpgradeAt, saved: Saved, alive: bool, retry: bool,
      choice: nat)
    requires Own(m, t, Upgrade(at, saved, alive, retry))
    ensures var pc := Upgrade(at, saved, alive, retry); var move := UpgradeMove(m, t, next, pc, choice);
        ReadyShape(m, pc, move)
  {
    hide *;
    if at.RestoreReady? {
      RestoreReadiness(m, t, next, saved, alive, retry, choice);
    } else {
      OtherReadiness(m, t, next, at, saved, alive, retry, choice);
    }
  }

  lemma UpgradeGenerations(m: Memory, t: nat, next: nat, at: UpgradeAt, saved: Saved, alive: bool, retry: bool,
      choice: nat)
    requires Own(m, t, Upgrade(at, saved, alive, retry))
    ensures var pc := Upgrade(at, saved, alive, retry); var move := UpgradeMove(m, t, next, pc, choice);
        GenerationShape(m, pc, move)
  {
    hide Quiet, Responsible, OwnsSlot, Dark, Clearing;
  }

  lemma UpgradeShape(m: Memory, t: nat, next: nat, at: UpgradeAt, saved: Saved, alive: bool, retry: bool, choice: nat)
    requires Own(m, t, Upgrade(at, saved, alive, retry))
    ensures var pc := Upgrade(at, saved, alive, retry); Shape(m, t, next, pc, UpgradeMove(m, t, next, pc, choice))
  {
    hide LockShape, SlotShape, CareShape, ReadyShape, GenerationShape, Own, UpgradeMove;
    UpgradeHolding(m, t, next, at, saved, alive, retry, choice);
    UpgradeCare(m, t, next, at, saved, alive, retry, choice);
    UpgradeReadiness(m, t, next, at, saved, alive, retry, choice);
    UpgradeGenerations(m, t, next, at, saved, alive, retry, choice);
  }

  lemma AnyShape(m: Memory, t: nat, next: nat, pc: Pc, choice: nat)
    requires Own(m, t, pc)
    ensures Shape(m, t, next, pc, MoveOf(m, t, next, pc, choice))
  {
    hide Shape, StartMove, RunMove, LoopMove, TermMove, MonitorMove, StopMove, UpgradeMove;
    match pc
    case Done =>
    case Release(after) => ReleaseShape(m, t, next, after);
    case Start(caller, stage, g) => StartShape(m, t, next, caller, stage, g, choice != 0);
    case Run(at) => RunShape(m, t, next, at);
    case Loop(at) => LoopShape(m, t, next, at);
    case Term(at, g) => TermShape(m, t, next, at, g);
    case Monitor(at, g, failures) => MonitorShape(m, t, next, at, g, failures, choice);
    case Stop(at) => StopShape(m, t, next, at);
    case Upgrade(at, saved, alive, retry) => UpgradeShape(m, t, next, at, saved, alive, retry, choice);
  }

  // ----- from one thread to all

  /** Thread `t` moved: the others stayed, and one may have been spawned behind them. */
  ghost predicate Moved(s: State, t: nat, move: Move, s': State) {
    && t < |s.threads| && s'.memory == move.memory
    && |s.threads| <= |s'.threads| <= |s.threads| + 1
    && s'.threads[t] == move.pc
    && (forall u :: 0 <= u < |s.threads| && u != t ==> s'.threads[u] == s.threads[u])
    && (if move.spawned.Done? then |s'.threads| == |s.threads|
        else |s'.threads| == |s.threads| + 1 && s'.threads[|s.threads|] == move.spawned)
  }

  lemma LockLifts(s: State, t: nat, move: Move, s': State)
    requires Moved(s, t, move, s') && LockShape(s.memory, t, s.threads[t], move)
    requires LockKept(s.memory.lock, s.threads)
    ensures LockKept(s'.memory.lock, s'.threads)
  {
    hide Holds;
  }

  lemma SlotLifts(s: State, t: nat, move: Move, s': State)
    requires Moved(s, t, move, s') && SlotShape(s.memory, |s.threads|, s.threads[t], move)
    requires SlotKept(s.memory.slot, s.threads)
    ensures SlotKept(s'.memory.slot, s'.threads)
  {
    hide Responsible;
    assert !OwnsSlot(Done);
    hide OwnsSlot;
  }

  lemma QuietLifts(s: State, t: nat, move: Move, s': State)
    requires Moved(s, t, move, s') && CareShape(s.memory, s.threads[t], move)
    requires Own(s.memory, t, s.threads[t])
    requires LockKept(s.memory.lock, s.threads) && QuietKept(s.memory.desired, s.threads)
    ensures QuietKept(s'.memory.desired, s'.threads)
  {
    hide Holds, Responsible, OwnsSlot, Dark, Bound;
    if s'.memory.desired {
      forall v | 0 <= v < |s'.threads| && Quiet(s'.threads[v])
        ensures SomeoneWaits(s'.threads)
      {
        assert v < |s.threads| && Quiet(s.threads[v]);
        QuietHolds(s.threads[v]);
        if move.pc == Run(RunWait) {
          assert s'.threads[t] == Run(RunWait);
        } else {
          var u :| 0 <= u < |s.threads| && s.threads[u] == Run(RunWait);
          assert WantsLock(s.threads[u]);
          assert s'.threads[u] == Run(RunWait);
        }
      }
    }
  }

  lemma QuietHolds(pc: Pc)
    ensures Quiet(pc) ==> Holds(pc)
  {
  }

  lemma NotLostLifts(s: State, t: nat, move: Move, s': State)
    requires Moved(s, t, move, s')
    requires CareShape(s.memory, s.threads[t], move) && SlotShape(s.memory, |s.threads|, s.threads[t], move)
    requires NotLost(s.memory, s.threads) && QuietKept(s.memory.desired, s.threads)
    ensures NotLost(s'.memory, s'.threads)
  {
    var m' := s'.memory;
    if m'.desired && !m'.ready && !m'.abandoned && m'.slot.None? && !Responsible(move.pc) {
      assert s.memory.slot.None?;
      if Quiet(s.threads[t]) && s.memory.desired {
        var u :| 0 <= u < |s.threads| && s.threads[u] == Run(RunWait);
        assert Responsible(s'.threads[u]);
      } else {
        var u :| 0 <= u < |s.threads| && Responsible(s.threads[u]);
        assert Responsible(s'.threads[u]);
      }
    } else if Responsible(move.pc) {
      assert Responsible(s'.threads[t]);
    }
  }

  lemma DarkLifts(s: State, t: nat, move: Move, s': State)
    requires Moved(s, t, move, s') && ReadyShape(s.memory, s.threads[t], move)
    requires LockKept(s.memory.lock, s.threads) && DarkKept(s.memory.ready, s.threads)
    ensures DarkKept(s'.memory.ready, s'.threads)
  {
    forall u | 0 <= u < |s.threads|
      ensures Dark(s.threads[u]) ==> Holds(s.threads[u])
    {
      DarkHolds(s.threads[u]);
    }
    hide Dark, Holds, Clearing;
  }

  lemma DarkHolds(pc: Pc)
    ensures Dark(pc) ==> Holds(pc)
  {
  }

  lemma BackedLifts(s: State, t: nat, move: Move, s': State)
    requires Moved(s, t, move, s') && ReadyShape(s.memory, s.threads[t], move)
    requires ReadyBacked(s.memory, s.threads)
    ensures ReadyBacked(s'.memory, s'.threads)
  {
    hide Dark, Holds, Clearing;
    var m' := s'.memory;
    if m'.ready && m'.active == 0 && !m'.stale {
      if Clearing(move.pc) {
        assert Clearing(s'.threads[t]);
      } else {
        var u :| 0 <= u < |s.threads| && Clearing(s.threads[u]);
        assert Clearing(s'.threads[u]);
      }
    }
  }

  lemma BoundsLift(s: State, t: nat, move: Move, s': State)
    requires Moved(s, t, move, s') && GenerationShape(s.memory, s.threads[t], move)
    requires LockKept(s.memory.lock, s.threads) && BoundsDrawn(s.memory.generation, s.threads)
    ensures BoundsDrawn(s'.memory.generation, s'.threads)
  {
    hide Bound, Holds;
  }

  lemma GenerationsLift(s: State, t: nat, move: Move, s': State)
    requires Moved(s, t, move, s') && GenerationShape(s.memory, s.threads[t], move)
    requires BoundsDrawn(s.memory.generation, s.threads) && GenerationsKept(s.memory)
    ensures GenerationsKept(s'.memory)
  {
    hide Bound, Holds;
    var before, after := s.memory.retired, s'.memory.retired;
    assert after != before ==> s.memory.active !in before;
  }

  lemma OwnFromInv(s: State, t: nat)
    requires Inv(s) && t < |s.threads| && CanAct(s.memory, s.threads[t])
    ensures Own(s.memory, t, s.threads[t])
  {
    hide Holds, OwnsSlot, Quiet, Dark, Clearing, Responsible, Bound, CanAct, NotLost;
  }

  lemma ActKeepsInv(s: State, t: nat, choice: nat)
    requires Inv(s) && t < |s.threads| && CanAct(s.memory, s.threads[t])
    ensures Inv(Next(s, Act(t, choice)))
  {
    var move := MoveOf(s.memory, t, |s.threads|, s.threads[t], choice);
    var s' := Next(s, Act(t, choice));
    hide MoveOf, CanAct;
    hide LockKept, SlotKept, QuietKept, NotLost, DarkKept, ReadyBacked, BoundsDrawn, GenerationsKept;
    hide Own, LockShape, SlotShape, CareShape, ReadyShape, GenerationShape;
    OwnFromInv(s, t);
    AnyShape(s.memory, t, |s.threads|, s.threads[t], choice);
    assert Moved(s, t, move, s');
    hide Moved;
    LockLifts(s, t, move, s');
    SlotLifts(s, t, move, s');
    QuietLifts(s, t, move, s');
    NotLostLifts(s, t, move, s');
    DarkLifts(s, t, move, s');
    BackedLifts(s, t, move, s');
    BoundsLift(s, t, move, s');
    GenerationsLift(s, t, move, s');
  }

  /** A thread arrived that holds nothing and owes nothing. */
  ghost predicate Joined(s: State, pc: Pc, s': State) {
    && !Holds(pc) && !OwnsSlot(pc) && !Quiet(pc) && !Dark(pc) && Bound(pc).None?
    && s' == State(s.memory, s.threads + [pc])
  }

  lemma JoinedHolding(s: State, pc: Pc, s': State)
    requires Joined(s, pc, s') && Inv(s)
    ensures LockKept(s'.memory.lock, s'.threads) && SlotKept(s'.memory.slot, s'.threads)
    ensures DarkKept(s'.memory.ready, s'.threads) && BoundsDrawn(s'.memory.generation, s'.threads)
  {
    hide QuietKept, NotLost, ReadyBacked, GenerationsKept;
    hide Holds, OwnsSlot, Quiet, Dark, Bound;
  }

  lemma JoinedCare(s: State, pc: Pc, s': State)
    requires Joined(s, pc, s') && Inv(s)
    ensures QuietKept(s'.memory.desired, s'.threads) && NotLost(s'.memory, s'.threads)
    ensures ReadyBacked(s'.memory, s'.threads)
  {
    hide LockKept, SlotKept, DarkKept, BoundsDrawn, GenerationsKept;
    hide Holds, OwnsSlot, Quiet, Dark, Bound, Responsible, Clearing;
    if u :| 0 <= u < |s.threads| && s.threads[u] == Run(RunWait) { assert s'.threads[u] == Run(RunWait); }
    if u :| 0 <= u < |s.threads| && Responsible(s.threads[u]) { assert Responsible(s'.threads[u]); }
    if u :| 0 <= u < |s.threads| && Clearing(s.threads[u]) { assert Clearing(s'.threads[u]); }
  }

  lemma ArrivalKeepsInv(s: State, request: Request)
    requires Inv(s)
    ensures Inv(Next(s, Arrive(request)))
  {
    var s' := Next(s, Arrive(request));
    assert Joined(s, Arrived(request), s');
    hide Joined, Arrived;
    JoinedHolding(s, Arrived(request), s');
    JoinedCare(s, Arrived(request), s');
  }

  lemma InvNext(s: State, step: Step)
    requires Inv(s) && Enabled(s, step)
    ensures Inv(Next(s, step))
  {
    hide Inv;
    match step
    case Arrive(request) => ArrivalKeepsInv(s, request);
    case Act(t, choice) => ActKeepsInv(s, t, choice);
  }

  lemma {:induction false} InvAlways(trace: seq<State>, steps: seq<Step>, i: nat)
    requires Execution(trace, steps) && i < |trace|
    ensures Inv(trace[i])
  {
    if i > 0 {
      InvAlways(trace, steps, i - 1);
      hide Inv, Next, Enabled;
      InvNext(trace[i - 1], steps[i - 1]);
    }
  }
}
