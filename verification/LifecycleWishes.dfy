/** Whether the core is wanted: what callers asked for, and what upgrades make of it. */
module LifecycleWishes {
  import opened Wrappers
  import opened LifecycleMachine
  import opened LifecycleInvariant
  import opened LifecycleTheorems
  import opened LifecycleHistory

  // ----- who writes the wish

  /** The wish a caller expresses. */
  function Wish(pc: Pc): Option<bool> {
    if pc == Run(SetDesired) then Some(true) else if pc == Stop(StopDesired) then Some(false) else None
  }

  predicate Swaps(pc: Pc) { pc.Upgrade? && pc.up.SwapDesired? }

  predicate Suppresses(pc: Pc) { pc.Upgrade? && (pc.up.SwapDesired? || pc.up.RollbackDesired?) }

  /** An upgrade stores the wish it remembers. */
  predicate PutsBack(pc: Pc) { pc.Upgrade? && (pc.up.RestoreDesired? || pc.up.ActivateDesired?) }

  /** The wish that an upgrade remembers, from its swap to its end. */
  function Carried(pc: Pc): Option<bool> {
    if pc.Upgrade? && !pc.up.UpgradeWait? && !pc.up.UpgradeCheck? && !pc.up.SwapDesired? then Some(pc.saved.desired)
    else if pc.Start? && pc.caller.ByUpgrade? then Some(pc.caller.saved.desired)
    else None
  }

  /** The upgrade has suppressed the wish and not put it back yet. */
  predicate InFlight(pc: Pc) {
    pc.Upgrade? && Carried(pc).Some? && !pc.up.RestoreReady? && !pc.up.RestoreFollow?
  }

  ghost predicate WishShape(m: Memory, pc: Pc, move: Move) { WishWritten(m, pc, move) && WishCarried(m, pc, move) }

  ghost predicate WishWritten(m: Memory, pc: Pc, move: Move) {
    && move.memory.desired == (if Wish(pc).Some? then Wish(pc).value
                               else if Suppresses(pc) then false
                               else if PutsBack(pc) then pc.saved.desired
                               else m.desired)
    && (Suppresses(pc) ==> InFlight(move.pc))
    && (GivesUp(pc) ==> Carried(move.pc).None?)
  }

  ghost predicate WishCarried(m: Memory, pc: Pc, move: Move) {
    && (Carried(move.pc).Some? ==>
          Carried(move.pc) == Carried(pc) || (Swaps(pc) && Carried(move.pc) == Some(m.desired)))
    && Carried(move.spawned).None?
    && (InFlight(pc) ==> InFlight(move.pc) || PutsBack(pc) || GivesUp(pc))
  }

  lemma StartWishes(m: Memory, caller: Caller, stage: Stage, g: Generation, ok: bool)
    ensures WishShape(m, Start(caller, stage, g), StartMove(m, caller, stage, g, ok))
  {
  }

  lemma RunWishes(m: Memory, t: nat, next: nat, at: RunAt)
    ensures WishShape(m, Run(at), RunMove(m, t, next, at))
  {
  }

  lemma LoopWishes(m: Memory, t: nat, next: nat, at: LoopAt)
    ensures WishShape(m, Loop(at), LoopMove(m, t, next, at))
  {
  }

  lemma TermWishes(m: Memory, next: nat, at: TermAt, g: Generation)
    ensures WishShape(m, Term(at, g), TermMove(m, next, at, g))
  {
  }

  lemma MonitorWishes(m: Memory, next: nat, at: MonitorAt, g: Generation, failures: nat, choice: nat)
    ensures WishShape(m, Monitor(at, g, failures), MonitorMove(m, next, at, g, failures, choice))
  {
  }

  lemma StopWishes(m: Memory, t: nat, at: StopAt)
    ensures WishShape(m, Stop(at), StopMove(m, t, at))
  {
  }

  lemma UpgradeWishes(m: Memory, t: nat, next: nat, at: UpgradeAt, saved: Saved, alive: bool, retry: bool, choice: nat)
    ensures var pc := Upgrade(at, saved, alive, retry); WishShape(m, pc, UpgradeMove(m, t, next, pc, choice))
  {
    hide UpgradeMove, WishWritten, WishCarried;
    UpgradeWritesWish(m, t, next, at, saved, alive, retry, choice);
    UpgradeCarries(m, t, next, at, saved, alive, retry, choice);
  }

  lemma UpgradeWritesWish(
      m: Memory, t: nat, next: nat, at: UpgradeAt, saved: Saved, alive: bool, retry: bool, choice: nat)
    ensures var pc := Upgrade(at, saved, alive, retry); WishWritten(m, pc, UpgradeMove(m, t, next, pc, choice))
  {
  }

  lemma UpgradeCarries(m: Memory, t: nat, next: nat, at: UpgradeAt, saved: Saved, alive: bool, retry: bool, choice: nat)
    ensures var pc := Upgrade(at, saved, alive, retry); WishCarried(m, pc, UpgradeMove(m, t, next, pc, choice))
  {
  }

  lemma RestWishes(m: Memory, after: After)
    ensures WishShape(m, Done, Move(m, Done, Done))
    ensures WishShape(m, Release(after), Move(m.(lock := None), Resumed(after), Done))
  {
  }

  lemma MoveWishes(m: Memory, t: nat, next: nat, pc: Pc, choice: nat)
    ensures WishShape(m, pc, MoveOf(m, t, next, pc, choice))
  {
    hide WishShape, StartMove, RunMove, LoopMove, TermMove, MonitorMove, StopMove, UpgradeMove;
    match pc
    case Done => RestWishes(m, End);
    case Release(after) => RestWishes(m, after);
    case Start(caller, stage, g) => StartWishes(m, caller, stage, g, choice != 0);
    case Run(at) => RunWishes(m, t, next, at);
    case Loop(at) => LoopWishes(m, t, next, at);
    case Term(at, g) => TermWishes(m, next, at, g);
    case Monitor(at, g, failures) => MonitorWishes(m, next, at, g, failures, choice);
    case Stop(at) => StopWishes(m, t, at);
    case Upgrade(at, saved, alive, retry) => UpgradeWishes(m, t, next, at, saved, alive, retry, choice);
  }

  /** One step, seen from thread `u`. */
  ghost predicate WishStep(s: State, step: Step, s': State, u: nat) {
    var pc := Actor(s, step);
    && s'.memory.desired == (if Wish(pc).Some? then Wish(pc).value
                             else if Suppresses(pc) then false
                             else if PutsBack(pc) then pc.saved.desired
                             else s.memory.desired)
    && (u < |s'.threads| && Carried(s'.threads[u]).Some? ==>
          && u < |s.threads|
          && (Carried(s'.threads[u]) == Carried(s.threads[u])
              || (step.Act? && step.thread == u && Swaps(pc) && Carried(s'.threads[u]) == Some(s.memory.desired))))
    && (u < |s.threads| && InFlight(s.threads[u]) ==>
          u < |s'.threads|
          && (InFlight(s'.threads[u]) || (step.Act? && step.thread == u && (PutsBack(pc) || GivesUp(pc)))))
    && (step.Act? && step.thread == u && Suppresses(pc) ==> u < |s'.threads| && InFlight(s'.threads[u]))
    && (step.Act? && step.thread == u && GivesUp(pc) ==> u < |s'.threads| && Carried(s'.threads[u]).None?)
  }

  lemma StepWishes(s: State, step: Step, u: nat)
    requires Enabled(s, step)
    ensures WishStep(s, step, Next(s, step), u)
  {
    match step
    case Arrive(request) =>
      assert Carried(Arrived(request)).None? && Wish(Done).None?;
    case Act(t, choice) =>
      MoveWishes(s.memory, t, |s.threads|, s.threads[t], choice);
      assert Carried(Done).None?;
      var move := MoveOf(s.memory, t, |s.threads|, s.threads[t], choice);
      hide MoveOf, CanAct, Carried, InFlight, Wish, Suppresses, PutsBack, Swaps, GivesUp;
      assert Moved(s, t, move, Next(s, step));
  }

  lemma RunWishSteps(trace: seq<State>, steps: seq<Step>, i: nat, u: nat)
    requires Execution(trace, steps) && i < |steps|
    ensures WishStep(trace[i], steps[i], trace[i + 1], u)
  {
    hide Next, Enabled, WishStep;
    StepWishes(trace[i], steps[i], u);
  }

  // ----- an upgrade puts back what it found

  /** Thread `t` swapped the wish out at step `j`, and has carried what it found there ever since. */
  ghost predicate SwappedAt(trace: seq<State>, steps: seq<Step>, j: nat, i: nat, t: nat)
    requires i < |trace| && i <= |steps|
  {
    && j < i && steps[j].Act? && steps[j].thread == t && Swaps(Actor(trace[j], steps[j]))
    && forall l :: j < l <= i ==>
      t < |trace[l].threads| && Carried(trace[l].threads[t]) == Some(trace[j].memory.desired)
  }

  lemma {:induction false} CarriedWasSwapped(trace: seq<State>, steps: seq<Step>, i: nat, t: nat) returns (j: nat)
    requires Execution(trace, steps) && i < |trace| && t < |trace[i].threads| && Carried(trace[i].threads[t]).Some?
    ensures SwappedAt(trace, steps, j, i, t)
  {
    hide Next, Enabled, Carried, Swaps, Actor, Wish, Suppresses, PutsBack, InFlight, GivesUp;
    assert i > 0;
    RunWishSteps(trace, steps, i - 1, t);
    if Carried(trace[i].threads[t]) == Carried(trace[i - 1].threads[t]) {
      j := CarriedWasSwapped(trace, steps, i - 1, t);
    } else {
      j := i - 1;
    }
  }

  /** An upgrade that restores or activates stores exactly the wish that held before its swap. */
  lemma UpgradePutsWishBack(trace: seq<State>, steps: seq<Step>, k: nat) returns (j: nat)
    requires Execution(trace, steps) && k < |steps| && PutsBack(Actor(trace[k], steps[k]))
    ensures SwappedAt(trace, steps, j, k, steps[k].thread)
    ensures trace[k + 1].memory.desired == trace[j].memory.desired
  {
    var t := steps[k].thread;
    assert Carried(trace[k].threads[t]) == Some(Actor(trace[k], steps[k]).saved.desired);
    j := CarriedWasSwapped(trace, steps, k, t);
    RunWishSteps(trace, steps, k, t);
    assert Wish(Actor(trace[k], steps[k])).None?;
  }

  // ----- the last wish

  /** What callers have asked for last; nobody has asked for anything at first. */
  ghost function LastWish(trace: seq<State>, steps: seq<Step>, i: nat): bool
    requires i <= |steps| && i <= |trace|
  {
    if i == 0 then false
    else
      var wish := Wish(Actor(trace[i - 1], steps[i - 1]));
      if wish.Some? then wish.value else LastWish(trace, steps, i - 1)
  }

  ghost predicate NoWish(trace: seq<State>, steps: seq<Step>, a: nat, b: nat)
    requires b <= |steps| && b <= |trace|
  {
    forall l :: a <= l < b ==> Wish(Actor(trace[l], steps[l])).None?
  }

  /** Either nobody has wished in between, or the latest wish in between is the last one. */
  lemma {:induction false} LatestWish(trace: seq<State>, steps: seq<Step>, a: nat, b: nat)
    requires a <= b <= |steps| && b <= |trace|
    ensures NoWish(trace, steps, a, b) ==> LastWish(trace, steps, b) == LastWish(trace, steps, a)
    ensures NoWish(trace, steps, a, b)
            || exists w :: a <= w < b && Wish(Actor(trace[w], steps[w])) == Some(LastWish(trace, steps, b))
                           && NoWish(trace, steps, w + 1, b)
    decreases b
  {
    hide Wish, Actor;
    if a < b {
      LatestWish(trace, steps, a, b - 1);
      if Wish(Actor(trace[b - 1], steps[b - 1])).Some? {
        assert NoWish(trace, steps, b, b);
      } else if !NoWish(trace, steps, a, b - 1) {
        var w :| a <= w < b - 1 && Wish(Actor(trace[w], steps[w])) == Some(LastWish(trace, steps, b - 1))
                 && NoWish(trace, steps, w + 1, b - 1);
        assert NoWish(trace, steps, w + 1, b);
      }
    }
  }

  /** Some upgrade has suppressed the wish and not put it back yet. */
  ghost predicate UpgradeInFlight(s: State) { exists t :: 0 <= t < |s.threads| && InFlight(s.threads[t]) }

  /** An upgrade whose rollback failed too gave up, and nobody has wished since. */
  ghost predicate LeftBehind(trace: seq<State>, steps: seq<Step>, k: nat, i: nat)
    requires i <= |steps| && i <= |trace|
  {
    k < i && GivesUp(Actor(trace[k], steps[k])) && NoWish(trace, steps, k, i)
  }

  /** An upgrade put back the wish it had found over one expressed in the meantime, and nobody has wished since. */
  ghost predicate PutOver(trace: seq<State>, steps: seq<Step>, k: nat, i: nat)
    requires i <= |steps| && i <= |trace|
  {
    && k < i && PutsBack(Actor(trace[k], steps[k])) && NoWish(trace, steps, k, i)
    && exists j: nat, w: nat :: j < w < k && SwappedAt(trace, steps, j, k, steps[k].thread)
         && Wish(Actor(trace[w], steps[w])) == Some(!trace[j].memory.desired)
  }

  ghost predicate Excused(trace: seq<State>, steps: seq<Step>, i: nat)
    requires i <= |steps| && i <= |trace|
  {
    exists k: nat :: LeftBehind(trace, steps, k, i) || PutOver(trace, steps, k, i)
  }

  lemma ExcuseStays(trace: seq<State>, steps: seq<Step>, a: nat, b: nat)
    requires a <= b <= |steps| && b <= |trace| && Excused(trace, steps, a) && NoWish(trace, steps, a, b)
    ensures Excused(trace, steps, b)
  {
    hide Wish, Actor, PutsBack, GivesUp, SwappedAt;
    var k: nat :| LeftBehind(trace, steps, k, a) || PutOver(trace, steps, k, a);
    assert NoWish(trace, steps, k, b);
    assert LeftBehind(trace, steps, k, b) || PutOver(trace, steps, k, b);
  }

  /**
   In every state the core is wanted exactly if the last wish says so, apart from an upgrade in flight, one whose
   rollback failed, and one that put the wish it had found over a newer one.
   */
  lemma {:induction false} WantedIsLastWish(trace: seq<State>, steps: seq<Step>, i: nat)
    requires Execution(trace, steps) && i < |trace|
    ensures UpgradeInFlight(trace[i]) || Excused(trace, steps, i)
            || trace[i].memory.desired == LastWish(trace, steps, i)
    decreases i, 0
  {
    if i > 0 {
      var k := i - 1;
      var pc := Actor(trace[k], steps[k]);
      hide Next, Enabled, Excused, LastWish, SwappedAt;
      if PutsBack(pc) {
        PuttingBack(trace, steps, k);
      } else {
        WantedIsLastWish(trace, steps, k);
        OtherStep(trace, steps, k);
      }
    }
  }

  lemma {:induction false} PuttingBack(trace: seq<State>, steps: seq<Step>, k: nat)
    requires Execution(trace, steps) && k < |steps| && PutsBack(Actor(trace[k], steps[k]))
    ensures Excused(trace, steps, k + 1) || trace[k + 1].memory.desired == LastWish(trace, steps, k + 1)
    decreases k, 2
  {
    ActorActs(trace[k], steps[k]);
    var j := UpgradePutsWishBack(trace, steps, k);
    SwapCameBefore(trace, steps, j, k, steps[k].thread);
    hide Next, Enabled, Actor, PutsBack, Swaps, Excused, LastWish, NoWish, SwappedAt, Wish;
    WantedBeforeSwap(trace, steps, j);
    WishPutBack(trace, steps, j, k);
  }

  lemma SwapCameBefore(trace: seq<State>, steps: seq<Step>, j: nat, k: nat, t: nat)
    requires k < |steps| && k < |trace| && SwappedAt(trace, steps, j, k, t)
    ensures j < k && steps[j].Act? && Swaps(Actor(trace[j], steps[j]))
  {
    hide Actor, Swaps;
  }

  lemma WishPutBack(trace: seq<State>, steps: seq<Step>, j: nat, k: nat)
    requires |trace| == |steps| + 1 && j < k < |steps| && PutsBack(Actor(trace[k], steps[k])) && steps[k].Act?
    requires SwappedAt(trace, steps, j, k, steps[k].thread) && trace[k + 1].memory.desired == trace[j].memory.desired
    requires NoWish(trace, steps, j, j + 1)
    requires Excused(trace, steps, j) || trace[j].memory.desired == LastWish(trace, steps, j)
    ensures Excused(trace, steps, k + 1) || trace[k + 1].memory.desired == LastWish(trace, steps, k + 1)
  {
    hide Excused, LastWish, Wish, Swaps, PutsBack, Actor, SwappedAt;
    NoWishWhenPuttingBack(trace, steps, k);
    LatestWish(trace, steps, j, k + 1);
    if NoWish(trace, steps, j, k + 1) {
      if Excused(trace, steps, j) {
        ExcuseStays(trace, steps, j, k + 1);
      }
    } else {
      var w :| j <= w < k + 1 && Wish(Actor(trace[w], steps[w])) == Some(LastWish(trace, steps, k + 1))
               && NoWish(trace, steps, w + 1, k + 1);
      assert w != j && w != k;
      if LastWish(trace, steps, k + 1) != trace[j].memory.desired {
        ExcusedBy(trace, steps, k, k + 1);
      }
    }
  }

  lemma ExcusedBy(trace: seq<State>, steps: seq<Step>, k: nat, i: nat)
    requires i <= |steps| && i <= |trace|
    requires LeftBehind(trace, steps, k, i) || PutOver(trace, steps, k, i)
    ensures Excused(trace, steps, i)
  {
  }

  lemma NoWishWhenPuttingBack(trace: seq<State>, steps: seq<Step>, k: nat)
    requires k < |steps| && k < |trace|
    ensures PutsBack(Actor(trace[k], steps[k])) || Swaps(Actor(trace[k], steps[k])) ==>
              NoWish(trace, steps, k, k + 1)
  {
  }

  /** When an upgrade swaps the wish out, no other one is in flight. */
  lemma WantedBeforeSwap(trace: seq<State>, steps: seq<Step>, j: nat)
    requires Execution(trace, steps) && j < |steps| && steps[j].Act? && Swaps(Actor(trace[j], steps[j]))
    ensures NoWish(trace, steps, j, j + 1)
    ensures Excused(trace, steps, j) || trace[j].memory.desired == LastWish(trace, steps, j)
    decreases j, 1
  {
    NoWishWhenPuttingBack(trace, steps, j);
    WantedIsLastWish(trace, steps, j);
    InvAlways(trace, steps, j);
    hide Next, Enabled, Excused, LastWish;
    var s, t := trace[j], steps[j].thread;
    assert Holds(s.threads[t]);
    forall u | 0 <= u < |s.threads|
      ensures !InFlight(s.threads[u])
    {
      OneHolder(s, t, u);
      CarriedHolds(s.threads[u]);
    }
  }

  lemma OneHolder(s: State, t: nat, u: nat)
    requires Inv(s) && t < |s.threads| && u < |s.threads| && Holds(s.threads[t])
    ensures Holds(s.threads[u]) ==> u == t
  {
    hide Holds, SlotKept, QuietKept, NotLost, DarkKept, ReadyBacked, BoundsDrawn, GenerationsKept;
  }

  lemma LastWishNext(trace: seq<State>, steps: seq<Step>, k: nat)
    requires k < |steps| && k < |trace|
    ensures var wish := Wish(Actor(trace[k], steps[k]));
      LastWish(trace, steps, k + 1) == if wish.Some? then wish.value else LastWish(trace, steps, k)
    ensures Wish(Actor(trace[k], steps[k])).None? ==> NoWish(trace, steps, k, k + 1)
  {
    hide Wish, Actor;
  }

  /** A step that neither wishes nor touches the wish leaves everything as it is, but an upgrade may give up. */
  lemma QuietStep(trace: seq<State>, steps: seq<Step>, k: nat)
    requires Execution(trace, steps) && k < |steps|
    requires var pc := Actor(trace[k], steps[k]); !PutsBack(pc) && !Suppresses(pc) && Wish(pc).None?
    requires UpgradeInFlight(trace[k]) || Excused(trace, steps, k)
             || trace[k].memory.desired == LastWish(trace, steps, k)
    ensures UpgradeInFlight(trace[k + 1]) || Excused(trace, steps, k + 1)
            || trace[k + 1].memory.desired == LastWish(trace, steps, k + 1)
  {
    hide Next, Enabled, Excused, LastWish, NoWish, Carried, InFlight, Wish, Swaps, GivesUp, PutsBack, Suppresses, Actor;
    LastWishNext(trace, steps, k);
    RunWishSteps(trace, steps, k, 0);
    if Excused(trace, steps, k) {
      ExcuseStays(trace, steps, k, k + 1);
    } else if UpgradeInFlight(trace[k]) {
      var u :| 0 <= u < |trace[k].threads| && InFlight(trace[k].threads[u]);
      RunWishSteps(trace, steps, k, u);
      if GivesUp(Actor(trace[k], steps[k])) {
        ExcusedBy(trace, steps, k, k + 1);
      }
    }
  }

  lemma OtherStep(trace: seq<State>, steps: seq<Step>, k: nat)
    requires Execution(trace, steps) && k < |steps| && !PutsBack(Actor(trace[k], steps[k]))
    requires UpgradeInFlight(trace[k]) || Excused(trace, steps, k)
             || trace[k].memory.desired == LastWish(trace, steps, k)
    ensures UpgradeInFlight(trace[k + 1]) || Excused(trace, steps, k + 1)
            || trace[k + 1].memory.desired == LastWish(trace, steps, k + 1)
  {
    var pc := Actor(trace[k], steps[k]);
    assert Suppresses(pc) ==> steps[k].Act? && Wish(pc).None?;
    hide Next, Enabled, Excused, LastWish, NoWish, Carried, InFlight, Wish, Swaps, GivesUp, PutsBack, Suppresses, Actor;
    if Suppresses(pc) {
      RunWishSteps(trace, steps, k, steps[k].thread);
      assert InFlight(trace[k + 1].threads[steps[k].thread]);
    } else if Wish(pc).Some? {
      LastWishNext(trace, steps, k);
      RunWishSteps(trace, steps, k, 0);
    } else {
      QuietStep(trace, steps, k);
    }
  }

  // ----- after an upgrade that changed nothing

  /** Somebody asks for the core to be stopped, suppresses the wish, or puts back that it is not wanted. */
  predicate Quenches(pc: Pc) {
    Wish(pc) == Some(false) || Suppresses(pc) || (PutsBack(pc) && !pc.saved.desired) || GivesUp(pc)
  }

  lemma CarriedHolds(pc: Pc)
    ensures Carried(pc).Some? ==> Holds(pc)
    ensures GivesUp(pc) ==> Holds(pc)
  {
  }

  lemma SwapIsNoEnd(pc: Pc)
    ensures Swaps(pc) ==> !GivesUp(pc)
  {
  }

  lemma ActorActs(s: State, step: Step)
    ensures GivesUp(Actor(s, step)) || PutsBack(Actor(s, step)) ==>
              step.Act? && step.thread < |s.threads| && Actor(s, step) == s.threads[step.thread]
  {
  }

  /** While an upgrade is between its swap and its end, no other one gives up. */
  lemma NobodyGaveUp(trace: seq<State>, steps: seq<Step>, j: nat, k: nat, t: nat, q: nat)
    requires Execution(trace, steps) && k < |steps| && SwappedAt(trace, steps, j, k, t) && j <= q < k
    ensures !GivesUp(Actor(trace[q], steps[q]))
  {
    var s := trace[q];
    InvAlways(trace, steps, q);
    hide Next, Enabled, Inv, Carried, Holds, GivesUp, Wish, PutsBack, Suppresses;
    SwapIsNoEnd(Actor(trace[j], steps[j]));
    ActorActs(s, steps[q]);
    if GivesUp(Actor(s, steps[q])) {
      var u := steps[q].thread;
      CarriedHolds(s.threads[u]);
      if q > j {
        CarriedHolds(s.threads[t]);
        OneHolder(s, t, u);
      }
      RunWishSteps(trace, steps, q, t);
    }
  }

  /**
   A core that was wanted before an upgrade which changed nothing is wanted after it until somebody asks otherwise;
   so when it dies there is a recovery loop, or a thread bound to schedule one.
   */
  lemma RecoveredAfterUnchangedUpgrade(trace: seq<State>, steps: seq<Step>, j: nat, k: nat, i: nat)
    requires Execution(trace, steps) && j < k < i < |trace|
    requires PutsBack(Actor(trace[k], steps[k])) && SwappedAt(trace, steps, j, k, steps[k].thread)
    requires trace[j].memory.desired
    requires forall l :: k < l < i ==> !Quenches(Actor(trace[l], steps[l]))
    ensures var m := trace[i].memory; var threads := trace[i].threads;
      && m.desired && !m.abandoned
      && (!m.ready ==> (exists u :: 0 <= u < |threads| && (OwnsSlot(threads[u]) || Responsible(threads[u]))))
      && (m.ready && m.active == 0 && !m.stale ==> (exists u :: 0 <= u < |threads| && Clearing(threads[u])))
  {
    StillWanted(trace, steps, j, k, i);
    InvAlways(trace, steps, i);
    var s := trace[i];
    hide Next, Enabled, OwnsSlot, Responsible, Clearing, LockKept, QuietKept, DarkKept, BoundsDrawn, GenerationsKept;
    hide Quenches, Actor, SwappedAt, PutsBack;
    if !s.memory.ready && s.memory.slot.Some? {
      assert OwnsSlot(s.threads[s.memory.slot.value]);
    }
  }

  lemma {:induction false} StillWanted(trace: seq<State>, steps: seq<Step>, j: nat, k: nat, i: nat)
    requires Execution(trace, steps) && j < k < i < |trace|
    requires PutsBack(Actor(trace[k], steps[k])) && SwappedAt(trace, steps, j, k, steps[k].thread)
    requires trace[j].memory.desired
    requires forall l :: k < l < i ==> !Quenches(Actor(trace[l], steps[l]))
    ensures trace[i].memory.desired && !trace[i].memory.abandoned
    decreases i
  {
    var l := i - 1;
    var pc := Actor(trace[l], steps[l]);
    RunWishSteps(trace, steps, l, 0);
    RunWrites(trace, steps, l);
    if l > k {
      hide Next, Enabled, SwappedAt;
      StillWanted(trace, steps, j, k, l);
    } else {
      var t := steps[k].thread;
      assert Carried(trace[k].threads[t]) == Some(trace[j].memory.desired);
      hide Next, Enabled, Carried;
      NotAbandonedInBetween(trace, steps, j, k, t);
    }
  }

  lemma NotAbandonedInBetween(trace: seq<State>, steps: seq<Step>, j: nat, k: nat, t: nat)
    requires Execution(trace, steps) && k < |steps| && SwappedAt(trace, steps, j, k, t)
    ensures !trace[k].memory.abandoned
  {
    AbandonedExactlyWhen(trace, steps, k);
    if trace[k].memory.abandoned {
      var q: nat :| GivenUpSince(trace, steps, q, k);
      assert Wishes(Actor(trace[j], steps[j]));
      hide Next, Enabled, Actor, Carried, GivesUp, Wishes, Gives, Swaps;
      if q >= j {
        NobodyGaveUp(trace, steps, j, k, t, q);
      }
    }
  }
}
