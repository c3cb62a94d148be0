/**
 The core manager as a protocol. Starters, the recovery loop, termination handlers, service monitors,
 stoppers and upgraders interleave at every atomic load, store, compare-exchange and lock operation.
 */
module LifecycleMachine {
  import opened Wrappers

  type Generation = nat   // 0 stands for "none active"

  /** What an upgrade remembers of the state before it. */
  datatype Saved = Saved(desired: bool, ready: bool, generation: Generation, service: bool)

  datatype Caller = ByRun | ByRecovery | ByUpgrade(saved: Saved, retry: bool)

  /** Where a thread is inside `start_core_locked`. */
  datatype Stage =
    | Generate | Unready | DrawGeneration | Announce | KillOld | ChooseMode
    | CallService | ServiceReady | ServiceWatch | ServiceRetire | ServiceUnready
    | Prepare | SpawnChild | SpawnRetire | Adopt | WatchChild
    | AwaitReady | ReadyRetire | ReadyKill | ReadyUnready | Confirm | MarkReady

  /** What a thread goes on with once it has dropped the operation lock. */
  datatype After = End | Failed | Clear | Again

  datatype RunAt = SetDesired | RunWait | LoadDesired | LoadReady | RunSchedule

  datatype LoopAt =
    | Top | TopReady | Sleep | Check | CheckReady | LoopWait | Locked | LockedReady | ClearSlot
    | Tail | TailReady | TailSchedule

  datatype TermAt = Alive | TermRetire | TermTake | TermUnready | TermDesired | TermSchedule

  datatype MonitorAt = Tick | TickActive | TickMode | Poll | MonitorRetire | MonitorUnready | MonitorSchedule

  datatype StopAt = StopWait | StopDesired | StopReady | StopActive | StopKill

  datatype UpgradeAt =
    | UpgradeWait | UpgradeCheck | SwapDesired | SaveReady | SaveActive | SaveMode | Download
    | RestoreCheck | RestoreDesired | RestoreReady | RestoreFollow
    | SelfActive | SelfReady | SelfTake | ActivateCheck | ActivateDesired
    | RollbackDesired | RollbackFiles | Abandon

  datatype Pc =
    | Done
    | Release(after: After)                                        // about to drop the operation lock
    | Start(caller: Caller, stage: Stage, generation: Generation)  // start_core_locked
    | Run(run: RunAt)                                              // run_core
    | Loop(loop: LoopAt)                                           // the recovery loop
    | Term(term: TermAt, child: Generation)                        // handle_core_terminated
    | Monitor(monitor: MonitorAt, watched: Generation, failures: nat)
    | Stop(stop: StopAt)                                           // stop_core_async
    | Upgrade(up: UpgradeAt, saved: Saved, alive: bool, retry: bool)

  /**
   The shared fields. `lock` and `slot` (`recovery_scheduled`) also name the thread that has them, and the
   last three fields are history.
   */
  datatype Memory = Memory(
    desired: bool,
    ready: bool,
    generation: Generation,          // last one drawn
    active: Generation,
    sidecar: Option<Generation>,     // the child held, named by its generation
    service: bool,                   // use_service_mode
    lock: Option<nat>,
    slot: Option<nat>,
    retired: seq<Generation>,        // generations retired by a compare-exchange
    stale: bool,                     // readiness was last raised for a generation already retired
    abandoned: bool)                 // left down by an upgrade whose rollback failed; not up since, nor wished anew

  datatype State = State(memory: Memory, threads: seq<Pc>)

  /** What one acting thread does: the new memory, its next position, and the thread it spawns (`Done` for none). */
  datatype Move = Move(memory: Memory, pc: Pc, spawned: Pc)

  datatype Request = RunCore | StopCore | UpgradeCore

  /** A request arrives as a new thread, or a thread acts; `choice` resolves what foreign calls answer. */
  datatype Step = Arrive(request: Request) | Act(thread: nat, choice: nat)

  const NOTHING_SAVED := Saved(false, false, 0, false)
  const INIT := State(Memory(false, false, 0, 0, None, false, None, None, [], false, false), [])

  predicate WantsLock(pc: Pc) {
    pc == Run(RunWait) || pc == Loop(LoopWait) || pc == Stop(StopWait) || (pc.Upgrade? && pc.up.UpgradeWait?)
  }

  predicate CanAct(m: Memory, pc: Pc) {
    !pc.Done? && (WantsLock(pc) ==> m.lock.None?)
  }

  predicate Enabled(s: State, step: Step) {
    step.Act? ==> step.thread < |s.threads| && CanAct(s.memory, s.threads[step.thread])
  }

  // ----- shared pieces

  /** `schedule_core_recovery`: only the winner of the slot spawns a loop, as thread `next`. */
  function Schedule(m: Memory, next: nat, pc: Pc): Move {
    if m.slot.Some? then Move(m, pc, Done) else Move(m.(slot := Some(next)), pc, Loop(Top))
  }

  /** `active.compare_exchange(g, 0)` and where to go on success and on failure. */
  function Retire(m: Memory, g: Generation, won: Pc, lost: Pc): Move {
    if m.active == g then Move(m.(active := 0, retired := m.retired + [g]), won, Done) else Move(m, lost, Done)
  }

  /** `core_ready.store(ready)` by a thread that raises it for generation `g`. */
  function StoreReady(m: Memory, ready: bool, g: Generation): Memory {
    m.(ready := ready, stale := ready && m.active != g, abandoned := m.abandoned && !ready)
  }

  /** Where `start_core_locked` returns to. */
  function Returned(caller: Caller, ok: bool): Pc {
    match caller
    case ByRun => Release(if ok then End else Failed)
    case ByRecovery => Release(if ok then Clear else Again)
    case ByUpgrade(saved, retry) =>
      if ok then Release(End) else Upgrade(if retry then Abandon else RollbackDesired, saved, false, true)
  }

  function Resumed(after: After): Pc {
    match after
    case End => Done
    case Failed => Run(LoadDesired)
    case Clear => Loop(ClearSlot)
    case Again => Loop(Top)
  }

  // ----- what each kind of thread does

  function StartMove(m: Memory, c: Caller, stage: Stage, g: Generation, ok: bool): Move {
    match stage
    case Generate => Move(m, if ok then Start(c, Unready, 0) else Returned(c, false), Done)
    case Unready => Move(StoreReady(m, false, 0), Start(c, DrawGeneration, 0), Done)
    case DrawGeneration =>
      Move(m.(generation := m.generation + 1, active := m.generation + 1), Start(c, Announce, m.generation + 1), Done)
    // `?` on a path that is not text leaves the new generation active
    case Announce => Move(m, if ok then Start(c, KillOld, g) else Returned(c, false), Done)
    case KillOld => Move(m.(sidecar := None), Start(c, ChooseMode, g), Done)
    case ChooseMode => Move(m.(service := ok), Start(c, if ok then CallService else Prepare, g), Done)
    case CallService => Move(m, Start(c, if ok then ServiceReady else ServiceRetire, g), Done)
    case ServiceReady => Move(StoreReady(m, true, g), Start(c, ServiceWatch, g), Done)
    case ServiceWatch => Move(m, Returned(c, true), if ok then Monitor(Tick, g, 0) else Done)
    case ServiceRetire => Retire(m, g, Start(c, ServiceUnready, g), Start(c, ServiceUnready, g))
    case ServiceUnready => Move(StoreReady(m, false, 0), Returned(c, false), Done)
    case Prepare => Move(m, if ok then Start(c, SpawnChild, g) else Returned(c, false), Done)
    case SpawnChild => Move(m, Start(c, if ok then Adopt else SpawnRetire, g), Done)
    case SpawnRetire => Retire(m, g, Returned(c, false), Returned(c, false))
    case Adopt => Move(m.(sidecar := Some(g)), Start(c, WatchChild, g), Done)
    case WatchChild => Move(m, Start(c, AwaitReady, g), Term(Alive, g))
    case AwaitReady => Move(m, Start(c, if ok then Confirm else ReadyRetire, g), Done)
    case ReadyRetire => Retire(m, g, Start(c, ReadyKill, g), Start(c, ReadyUnready, g))
    case ReadyKill => Move(m.(sidecar := None), Start(c, ReadyUnready, g), Done)
    case ReadyUnready => Move(StoreReady(m, false, 0), Returned(c, false), Done)
    case Confirm => Move(m, if m.active == g then Start(c, MarkReady, g) else Returned(c, false), Done)
    case MarkReady => Move(StoreReady(m, true, g), Returned(c, true), Done)
  }

  function RunMove(m: Memory, t: nat, next: nat, at: RunAt): Move {
    match at
    case SetDesired => Move(m.(desired := true, abandoned := false), Run(RunWait), Done)
    case RunWait => Move(m.(lock := Some(t)), Start(ByRun, Generate, 0), Done)
    case LoadDesired => Move(m, if m.desired then Run(LoadReady) else Done, Done)
    case LoadReady => Move(m, if m.ready then Done else Run(RunSchedule), Done)
    case RunSchedule => Schedule(m, next, Done)
  }

  function LoopMove(m: Memory, t: nat, next: nat, at: LoopAt): Move {
    match at
    case Top => Move(m, Loop(if m.desired then TopReady else ClearSlot), Done)
    case TopReady => Move(m, Loop(if m.ready then ClearSlot else Sleep), Done)
    case Sleep => Move(m, Loop(Check), Done)
    case Check => Move(m, Loop(if m.desired then CheckReady else ClearSlot), Done)
    case CheckReady => Move(m, Loop(if m.ready then ClearSlot else LoopWait), Done)
    case LoopWait => Move(m.(lock := Some(t)), Loop(Locked), Done)
    case Locked => Move(m, if m.desired then Loop(LockedReady) else Release(Clear), Done)
    case LockedReady => Move(m, if m.ready then Release(Clear) else Start(ByRecovery, Generate, 0), Done)
    case ClearSlot => Move(m.(slot := None), Loop(Tail), Done)
    case Tail => Move(m, if m.desired then Loop(TailReady) else Done, Done)
    case TailReady => Move(m, if m.ready then Done else Loop(TailSchedule), Done)
    case TailSchedule => Schedule(m, next, Done)
  }

  function TermMove(m: Memory, next: nat, at: TermAt, g: Generation): Move {
    match at
    case Alive => Move(m, Term(TermRetire, g), Done)
    case TermRetire => Retire(m, g, Term(TermTake, g), Done)
    case TermTake => Move(m.(sidecar := None), Term(TermUnready, g), Done)
    case TermUnready => Move(StoreReady(m, false, 0), Term(TermDesired, g), Done)
    case TermDesired => Move(m, if m.desired then Term(TermSchedule, g) else Done, Done)
    case TermSchedule => Schedule(m, next, Done)
  }

  /** `choice` 0 and 2: the service answers that the core runs; else it does not; from 2 on the next tick is refused. */
  function MonitorMove(m: Memory, next: nat, at: MonitorAt, g: Generation, f: nat, choice: nat): Move {
    match at
    case Tick => Move(m, if m.desired then Monitor(TickActive, g, f) else Done, Done)
    case TickActive => Move(m, if m.active == g then Monitor(TickMode, g, f) else Done, Done)
    case TickMode => Move(m, if m.service then Monitor(Poll, g, f) else Done, Done)
    case Poll =>
      Move(m,
           if choice == 0 then Monitor(Tick, g, 0)
           else if choice == 2 then Done
           else if f + 1 < 3 then (if choice == 1 then Monitor(Tick, g, f + 1) else Done)
           else Monitor(MonitorRetire, g, f + 1),
           Done)
    case MonitorRetire => Retire(m, g, Monitor(MonitorUnready, g, f), Done)
    case MonitorUnready => Move(StoreReady(m, false, 0), Monitor(MonitorSchedule, g, f), Done)
    case MonitorSchedule => Schedule(m, next, Done)
  }

  function StopMove(m: Memory, t: nat, at: StopAt): Move {
    match at
    case StopWait => Move(m.(lock := Some(t)), Stop(StopDesired), Done)
    case StopDesired => Move(m.(desired := false, abandoned := false), Stop(StopReady), Done)
    case StopReady => Move(StoreReady(m, false, 0), Stop(StopActive), Done)
    case StopActive => Move(m.(active := 0), Stop(StopKill), Done)
    case StopKill => Move(m.(sidecar := if m.service then m.sidecar else None), Release(End), Done)
  }

  function UpgradeMove(m: Memory, t: nat, next: nat, pc: Pc, choice: nat): Move
    requires pc.Upgrade?
  {
    var saved := pc.saved;
    match pc.up
    case UpgradeWait => Move(m.(lock := Some(t)), pc.(up := UpgradeCheck), Done)
    case UpgradeCheck => Move(m, if m.ready && choice != 0 then pc.(up := SwapDesired) else Release(End), Done)
    case SwapDesired =>
      Move(m.(desired := false, abandoned := false), pc.(up := SaveReady, saved := saved.(desired := m.desired)), Done)
    case SaveReady => Move(m, pc.(up := SaveActive, saved := saved.(ready := m.ready)), Done)
    case SaveActive => Move(m, pc.(up := SaveMode, saved := saved.(generation := m.active)), Done)
    case SaveMode => Move(m, pc.(up := Download, saved := saved.(service := m.service)), Done)
    // 0: already current, or failed with the files intact; 1: failed after replacing them; else updated
    case Download =>
      Move(m,
           if choice == 0 then pc.(up := RestoreCheck)
           else if choice == 1 then pc.(up := RollbackDesired, retry := true)
           else pc.(up := SelfActive, retry := false),
           Done)
    case RestoreCheck =>
      var alive := saved.ready && saved.generation != 0 && m.active == saved.generation;
      Move(m, pc.(up := RestoreDesired, alive := alive), Done)
    case RestoreDesired => Move(m.(desired := saved.desired), pc.(up := RestoreReady), Done)
    case RestoreReady => Move(StoreReady(m, pc.alive, saved.generation), pc.(up := RestoreFollow), Done)
    case RestoreFollow =>
      if saved.desired && pc.alive && saved.service then
        Move(m, Release(End), if choice == 0 then Done else Monitor(Tick, saved.generation, 0))
      else if saved.desired && !pc.alive then Schedule(m, next, Release(End))
      else Move(m, Release(End), Done)
    case SelfActive => Move(m.(active := 0), pc.(up := SelfReady), Done)
    case SelfReady => Move(StoreReady(m, false, 0), pc.(up := SelfTake), Done)
    case SelfTake => Move(m.(sidecar := None), pc.(up := if pc.retry then RollbackFiles else ActivateCheck), Done)
    case ActivateCheck =>
      Move(m,
           if choice != 0 then pc.(up := ActivateDesired)
           else if pc.retry then pc.(up := Abandon) else pc.(up := RollbackDesired, retry := true),
           Done)
    case ActivateDesired =>
      Move(m.(desired := saved.desired),
           if saved.desired then Start(ByUpgrade(saved, pc.retry), Generate, 0) else Release(End), Done)
    case RollbackDesired => Move(m.(desired := false), pc.(up := SelfActive), Done)
    case RollbackFiles => Move(m, pc.(up := if choice != 0 then ActivateCheck else Abandon), Done)
    case Abandon => Move(m.(abandoned := true), Release(End), Done)
  }

  function MoveOf(m: Memory, t: nat, next: nat, pc: Pc, choice: nat): Move {
    match pc
    case Done => Move(m, Done, Done)
    case Release(after) => Move(m.(lock := None), Resumed(after), Done)
    case Start(caller, stage, g) => StartMove(m, caller, stage, g, choice != 0)
    case Run(at) => RunMove(m, t, next, at)
    case Loop(at) => LoopMove(m, t, next, at)
    case Term(at, g) => TermMove(m, next, at, g)
    case Monitor(at, g, failures) => MonitorMove(m, next, at, g, failures, choice)
    case Stop(at) => StopMove(m, t, at)
    case Upgrade(_, _, _, _) => UpgradeMove(m, t, next, pc, choice)
  }

  // ----- the machine

  function Arrived(request: Request): Pc {
    match request
    case RunCore => Run(SetDesired)
    case StopCore => Stop(StopWait)
    case UpgradeCore => Upgrade(UpgradeWait, NOTHING_SAVED, false, false)
  }

  function Apply(threads: seq<Pc>, t: nat, move: Move): State
    requires t < |threads|
  {
    State(move.memory, threads[t := move.pc] + (if move.spawned.Done? then [] else [move.spawned]))
  }

  function Next(s: State, step: Step): State
    requires Enabled(s, step)
  {
    match step
    case Arrive(request) => s.(threads := s.threads + [Arrived(request)])
    case Act(t, choice) => Apply(s.threads, t, MoveOf(s.memory, t, |s.threads|, s.threads[t], choice))
  }

  ghost predicate Execution(trace: seq<State>, steps: seq<Step>) {
    && |trace| == |steps| + 1
    && trace[0] == INIT
    && forall i :: 0 <= i < |steps| ==> Enabled(trace[i], steps[i]) && trace[i + 1] == Next(trace[i], steps[i])
  }
}
