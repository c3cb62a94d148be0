/** What the fields of the core manager say about the run so far, and what a late event can hit. */
module LifecycleHistory {
  import opened Wrappers
  import opened LifecycleMachine
  import opened LifecycleInvariant
  import opened LifecycleTheorems

  // ----- who writes what

  /** The two fields that belong to a core: its child, and its readiness. */
  datatype Field = Child | Readiness

  /** The generation a thread is about to adopt a child of, or to raise readiness for. */
  function Gives(field: Field, pc: Pc): Option<Generation> {
    match field
    case Child => if pc.Start? && pc.stage.Adopt? then Some(pc.generation) else None
    case Readiness =>
      if pc.Start? && (pc.stage.ServiceReady? || pc.stage.MarkReady?) then Some(pc.generation)
      else if pc.Upgrade? && pc.up.RestoreReady? && pc.alive then Some(pc.saved.generation)
      else None
  }

  /** The thread is about to take the child, or to lower readiness. */
  predicate Takes(field: Field, service: bool, pc: Pc) {
    match field
    case Child =>
      || (pc.Start? && (pc.stage.KillOld? || pc.stage.ReadyKill?))
      || (pc.Term? && pc.term.TermTake?)
      || (pc.Stop? && pc.stop.StopKill? && !service)
      || (pc.Upgrade? && pc.up.SelfTake?)
    case Readiness =>
      || (pc.Start? && (pc.stage.Unready? || pc.stage.ServiceUnready? || pc.stage.ReadyUnready?))
      || (pc.Term? && pc.term.TermUnready?)
      || (pc.Monitor? && pc.monitor.MonitorUnready?)
      || (pc.Stop? && pc.stop.StopReady?)
      || (pc.Upgrade? && (pc.up.SelfReady? || (pc.up.RestoreReady? && !pc.alive)))
  }

  /** A start draws the next generation. */
  predicate Draws(pc: Pc) { pc.Start? && pc.stage.DrawGeneration? }

  predicate GivesUp(pc: Pc) { pc.Upgrade? && pc.up.Abandon? }

  /** The wish to run, or not to run, is expressed anew. */
  predicate Wishes(pc: Pc) {
    pc == Run(SetDesired) || pc == Stop(StopDesired) || (pc.Upgrade? && pc.up.SwapDesired?)
  }

  /** What a move writes, told from the position alone. */
  ghost predicate Writes(m: Memory, pc: Pc, m': Memory) { WritesFields(m, pc, m') && WritesFlags(m, pc, m') }

  ghost predicate WritesFields(m: Memory, pc: Pc, m': Memory) {
    && m'.sidecar == (if Gives(Child, pc).Some? then Gives(Child, pc) else if Takes(Child, m.service, pc) then None
        else m.sidecar)
    && m'.ready == (Gives(Readiness, pc).Some? || (m.ready && !Takes(Readiness, m.service, pc)))
    && m'.generation == m.generation + (if Draws(pc) then 1 else 0)
  }

  ghost predicate WritesFlags(m: Memory, pc: Pc, m': Memory) {
    && m'.stale == (if Gives(Readiness, pc).Some? then m.active != Gives(Readiness, pc).value
                    else m.stale && !Takes(Readiness, m.service, pc))
    && m'.abandoned == (GivesUp(pc) || (m.abandoned && !Gives(Readiness, pc).Some? && !Wishes(pc)))
  }

  lemma StartWritesFields(m: Memory, caller: Caller, stage: Stage, g: Generation, ok: bool)
    ensures WritesFields(m, Start(caller, stage, g), StartMove(m, caller, stage, g, ok).memory)
  {
    hide Returned;
  }

  lemma StartWritesFlags(m: Memory, caller: Caller, stage: Stage, g: Generation, ok: bool)
    ensures WritesFlags(m, Start(caller, stage, g), StartMove(m, caller, stage, g, ok).memory)
  {
    hide Returned;
  }

  lemma StartWrites(m: Memory, caller: Caller, stage: Stage, g: Generation, ok: bool)
    ensures Writes(m, Start(caller, stage, g), StartMove(m, caller, stage, g, ok).memory)
  {
    hide StartMove, WritesFields, WritesFlags;
    StartWritesFields(m, caller, stage, g, ok);
    StartWritesFlags(m, caller, stage, g, ok);
  }

  lemma UpgradeWritesFields(
      m: Memory, t: nat, next: nat, at: UpgradeAt, saved: Saved, alive: bool, retry: bool, choice: nat)
    ensures var pc := Upgrade(at, saved, alive, retry); WritesFields(m, pc, UpgradeMove(m, t, next, pc, choice).memory)
  {
  }

  lemma UpgradeWritesFlags(
      m: Memory, t: nat, next: nat, at: UpgradeAt, saved: Saved, alive: bool, retry: bool, choice: nat)
    ensures var pc := Upgrade(at, saved, alive, retry); WritesFlags(m, pc, UpgradeMove(m, t, next, pc, choice).memory)
  {
  }

  lemma UpgradeWrites(m: Memory, t: nat, next: nat, at: UpgradeAt, saved: Saved, alive: bool, retry: bool, choice: nat)
    ensures var pc := Upgrade(at, saved, alive, retry); Writes(m, pc, UpgradeMove(m, t, next, pc, choice).memory)
  {
    hide UpgradeMove, WritesFields, WritesFlags;
    UpgradeWritesFields(m, t, next, at, saved, alive, retry, choice);
    UpgradeWritesFlags(m, t, next, at, saved, alive, retry, choice);
  }

  lemma DoneWrites(m: Memory)
    ensures Writes(m, Done, m)
  {
  }

  lemma ReleaseWrites(m: Memory, after: After)
    ensures Writes(m, Release(after), m.(lock := None))
  {
  }

  lemma RunCoreWrites(m: Memory, t: nat, next: nat, at: RunAt)
    ensures Writes(m, Run(at), RunMove(m, t, next, at).memory)
  {
  }

  lemma LoopWrites(m: Memory, t: nat, next: nat, at: LoopAt)
    ensures Writes(m, Loop(at), LoopMove(m, t, next, at).memory)
  {
  }

  lemma TermWrites(m: Memory, next: nat, at: TermAt, g: Generation)
    ensures Writes(m, Term(at, g), TermMove(m, next, at, g).memory)
  {
  }

  lemma MonitorWrites(m: Memory, next: nat, at: MonitorAt, g: Generation, failures: nat, choice: nat)
    ensures Writes(m, Monitor(at, g, failures), MonitorMove(m, next, at, g, failures, choice).memory)
  {
  }

  lemma StopWrites(m: Memory, t: nat, at: StopAt)
    ensures Writes(m, Stop(at), StopMove(m, t, at).memory)
  {
  }

  lemma MoveWrites(m: Memory, t: nat, next: nat, pc: Pc, choice: nat)
    ensures Writes(m, pc, MoveOf(m, t, next, pc, choice).memory)
  {
    hide StartMove, UpgradeMove, RunMove, LoopMove, TermMove, MonitorMove, StopMove, Writes;
    match pc
    case Done => DoneWrites(m);
    case Release(after) => ReleaseWrites(m, after);
    case Start(caller, stage, g) => StartWrites(m, caller, stage, g, choice != 0);
    case Run(at) => RunCoreWrites(m, t, next, at);
    case Loop(at) => LoopWrites(m, t, next, at);
    case Term(at, g) => TermWrites(m, next, at, g);
    case Monitor(at, g, failures) => MonitorWrites(m, next, at, g, failures, choice);
    case Stop(at) => StopWrites(m, t, at);
    case Upgrade(at, saved, alive, retry) => UpgradeWrites(m, t, next, at, saved, alive, retry, choice);
  }

  /** The position of the thread that acts in a step; an arrival does nothing. */
  function Actor(s: State, step: Step): Pc {
    if step.Act? && step.thread < |s.threads| then s.threads[step.thread] else Done
  }

  lemma StepWrites(s: State, step: Step)
    requires Enabled(s, step)
    ensures Writes(s.memory, Actor(s, step), Next(s, step).memory)
  {
    hide Writes, MoveOf, CanAct;
    match step
    case Arrive(request) => DoneWrites(s.memory);
    case Act(t, choice) => MoveWrites(s.memory, t, |s.threads|, s.threads[t], choice);
  }

  lemma RunWrites(trace: seq<State>, steps: seq<Step>, i: nat)
    requires Execution(trace, steps) && i < |steps|
    ensures Writes(trace[i].memory, Actor(trace[i], steps[i]), trace[i + 1].memory)
  {
    hide Writes, Next, Enabled, Actor;
    StepWrites(trace[i], steps[i]);
  }

  // ----- the last write decides

  predicate Touches(field: Field, s: State, step: Step) {
    Gives(field, Actor(s, step)).Some? || Takes(field, s.memory.service, Actor(s, step))
  }

  /** Step `k` gave the field to generation `h`, and no step since has touched it. */
  ghost predicate GivenAt(field: Field, trace: seq<State>, steps: seq<Step>, k: nat, i: nat, h: Generation)
    requires i <= |steps| && i <= |trace|
  {
    && k < i && Gives(field, Actor(trace[k], steps[k])) == Some(h)
    && forall l :: k < l < i ==> !Touches(field, trace[l], steps[l])
  }

  ghost predicate Belongs(field: Field, trace: seq<State>, steps: seq<Step>, i: nat, h: Generation)
    requires i <= |steps| && i <= |trace|
  {
    exists k: nat :: GivenAt(field, trace, steps, k, i, h)
  }

  lemma BelongsNext(field: Field, trace: seq<State>, steps: seq<Step>, i: nat, h: Generation)
    requires i < |steps| && i < |trace|
    ensures Belongs(field, trace, steps, i + 1, h) <==>
              || Gives(field, Actor(trace[i], steps[i])) == Some(h)
              || (Belongs(field, trace, steps, i, h) && !Touches(field, trace[i], steps[i]))
  {
    hide Actor, Gives, Takes;
    if Gives(field, Actor(trace[i], steps[i])) == Some(h) {
      assert GivenAt(field, trace, steps, i, i + 1, h);
    }
    if Belongs(field, trace, steps, i, h) && !Touches(field, trace[i], steps[i]) {
      var k: nat :| GivenAt(field, trace, steps, k, i, h);
      assert GivenAt(field, trace, steps, k, i + 1, h);
    }
    if Belongs(field, trace, steps, i + 1, h) {
      var k: nat :| GivenAt(field, trace, steps, k, i + 1, h);
      if k < i {
        assert GivenAt(field, trace, steps, k, i, h);
      }
    }
  }

  /** The child held is the one adopted last, if nobody has taken it since. */
  lemma {:induction false} ChildIsLastAdopted(trace: seq<State>, steps: seq<Step>, i: nat, h: Generation)
    requires Execution(trace, steps) && i < |trace|
    ensures trace[i].memory.sidecar == Some(h) <==> Belongs(Child, trace, steps, i, h)
  {
    hide Belongs, Actor, Gives, Takes, Next, Enabled, Draws, GivesUp, Wishes;
    if i == 0 {
      NothingBelongsAtFirst(Child, trace, steps);
    } else {
      ChildIsLastAdopted(trace, steps, i - 1, h);
      RunWrites(trace, steps, i - 1);
      BelongsNext(Child, trace, steps, i - 1, h);
    }
  }

  ghost predicate BelongsToAny(field: Field, trace: seq<State>, steps: seq<Step>, i: nat)
    requires i <= |steps| && i <= |trace|
  {
    exists h :: Belongs(field, trace, steps, i, h)
  }

  lemma NothingBelongsAtFirst(field: Field, trace: seq<State>, steps: seq<Step>)
    ensures !BelongsToAny(field, trace, steps, 0) && forall h :: !Belongs(field, trace, steps, 0, h)
  {
    hide Actor, Gives, Takes;
  }

  lemma BelongsToAnyNext(field: Field, trace: seq<State>, steps: seq<Step>, i: nat)
    requires i < |steps| && i < |trace|
    ensures BelongsToAny(field, trace, steps, i + 1) <==>
              || Gives(field, Actor(trace[i], steps[i])).Some?
              || (BelongsToAny(field, trace, steps, i) && !Touches(field, trace[i], steps[i]))
  {
    var gives := Gives(field, Actor(trace[i], steps[i]));
    if gives.Some? {
      BelongsNext(field, trace, steps, i, gives.value);
    }
    hide Belongs, Actor, Gives, Takes, Touches;
    var n := i + 1;
    if h :| Belongs(field, trace, steps, n, h) {
      BelongsNext(field, trace, steps, i, h);
    }
    if h :| Belongs(field, trace, steps, i, h) {
      BelongsNext(field, trace, steps, i, h);
    }
  }

  /**
   The core is ready exactly while some generation was the last one readiness was raised for and nobody has lowered
   it.
   */
  lemma {:induction false} ReadyIsLastRaised(trace: seq<State>, steps: seq<Step>, i: nat)
    requires Execution(trace, steps) && i < |trace|
    ensures trace[i].memory.ready <==> BelongsToAny(Readiness, trace, steps, i)
  {
    hide BelongsToAny, Belongs, GivenAt, Actor, Gives, Takes, Next, Enabled, Draws, GivesUp, Wishes;
    if i == 0 {
      NothingBelongsAtFirst(Readiness, trace, steps);
    } else {
      ReadyIsLastRaised(trace, steps, i - 1);
      RunWrites(trace, steps, i - 1);
      BelongsToAnyNext(Readiness, trace, steps, i - 1);
    }
  }

  // ----- what a late event hits

  /** Step `d` draws generation `h`. */
  predicate DrawnAt(s: State, step: Step, h: Generation) {
    Draws(Actor(s, step)) && s.memory.generation + 1 == h
  }

  /** Generations are drawn one by one. */
  lemma {:induction false} DrawBetween(trace: seq<State>, steps: seq<Step>, j: nat, k: nat, h: Generation)
      returns (d: nat)
    requires Execution(trace, steps) && j <= k < |trace|
    requires trace[j].memory.generation < h <= trace[k].memory.generation
    ensures j <= d < k && DrawnAt(trace[d], steps[d], h)
    decreases k
  {
    hide Actor, Next, Enabled, Draws, Gives, Takes;
    assert j < k;
    RunWrites(trace, steps, k - 1);
    if h <= trace[k - 1].memory.generation {
      d := DrawBetween(trace, steps, j, k - 1, h);
    } else {
      d := k - 1;
    }
  }

  lemma GivesOwnGeneration(field: Field, s: State, step: Step)
    requires Inv(s) && Enabled(s, step)
    ensures Gives(field, Actor(s, step)).Some? ==> Gives(field, Actor(s, step)).value <= s.memory.generation
  {
    hide LockKept, SlotKept, QuietKept, NotLost, DarkKept, ReadyBacked, GenerationsKept;
    if Gives(field, Actor(s, step)).Some? {
      assert Bound(s.threads[step.thread]) == Gives(field, Actor(s, step));
    }
  }

  /** Between steps `j` and `i` a start drew generation `h` and gave it the field, and there it still is. */
  ghost predicate Overtaken(field: Field, trace: seq<State>, steps: seq<Step>, j: nat, i: nat, h: Generation)
    requires i <= |steps| && i <= |trace|
  {
    exists d: nat, k: nat :: j < d < k && GivenAt(field, trace, steps, k, i, h) && DrawnAt(trace[d], steps[d], h)
  }

  lemma OvertakenExactly(field: Field, trace: seq<State>, steps: seq<Step>, j: nat, i: nat, g: Generation,
      h: Generation)
    requires Execution(trace, steps) && j < i < |trace|
    requires trace[j].memory.generation == g < h && Event(Actor(trace[j], steps[j]), g)
    ensures Belongs(field, trace, steps, i, h) <==> Overtaken(field, trace, steps, j, i, h)
  {
    if Belongs(field, trace, steps, i, h) {
      var k: nat :| GivenAt(field, trace, steps, k, i, h);
      InvAlways(trace, steps, k);
      ExecutionStep(trace, steps, k);
      GivesOwnGeneration(field, trace[k], steps[k]);
      if k <= j {
        RetiredOnceForAll(trace, steps, k, j);
      }
      hide Inv, Next, Enabled, Actor, Gives, Takes;
      var d := DrawBetween(trace, steps, j, k, h);
      EventDoesNotDraw(Actor(trace[j], steps[j]), g);
      assert DrawnAt(trace[d], steps[d], h);
    }
  }

  lemma EventDoesNotDraw(pc: Pc, g: Generation)
    requires Event(pc, g)
    ensures !Draws(pc)
  {
  }

  /**
   The handler of core g drops the child of a newer core h if and only if, since its event was accepted, a start has
   drawn h and adopted its child, and nobody has taken that child since.
   */
  lemma LateTakeExactly(trace: seq<State>, steps: seq<Step>, i: nat, g: Generation, h: Generation) returns (j: nat)
    requires Execution(trace, steps) && i < |steps| && Actor(trace[i], steps[i]) == Term(TermTake, g) && g < h
    ensures j < i && steps[j].Act? && steps[j].thread == steps[i].thread
    ensures Event(Actor(trace[j], steps[j]), g) && trace[j].memory.active == trace[j].memory.generation == g
    ensures trace[i].memory.sidecar == Some(h) && trace[i + 1].memory.sidecar.None? <==>
        Overtaken(Child, trace, steps, j, i, h)
  {
    j := WritesFollowAcceptance(trace, steps, i, steps[i].thread, g);
    RunWrites(trace, steps, i);
    assert Takes(Child, trace[i].memory.service, Actor(trace[i], steps[i]));
    hide Next, Enabled, Belongs, Overtaken;
    ChildIsLastAdopted(trace, steps, i, h);
    OvertakenExactly(Child, trace, steps, j, i, g, h);
  }

  /** A handler or monitor of core g lowers the readiness of a newer core h under the same condition. */
  lemma LateUnreadyExactly(trace: seq<State>, steps: seq<Step>, i: nat, g: Generation, h: Generation) returns (j: nat)
    requires Execution(trace, steps) && i < |steps| && g < h
    requires var pc := Actor(trace[i], steps[i]);
      pc == Term(TermUnready, g) || (pc.Monitor? && pc.monitor.MonitorUnready? && pc.watched == g)
    ensures j < i && steps[j].Act? && steps[j].thread == steps[i].thread
    ensures Event(Actor(trace[j], steps[j]), g) && trace[j].memory.active == trace[j].memory.generation == g
    ensures Belongs(Readiness, trace, steps, i, h) && !trace[i + 1].memory.ready <==>
        Overtaken(Readiness, trace, steps, j, i, h)
  {
    j := WritesFollowAcceptance(trace, steps, i, steps[i].thread, g);
    RunWrites(trace, steps, i);
    assert Takes(Readiness, trace[i].memory.service, Actor(trace[i], steps[i]));
    hide Next, Enabled, Belongs, Overtaken;
    OvertakenExactly(Readiness, trace, steps, j, i, g, h);
  }

  /** As long as no newer generation has been drawn, an accepted event touches nothing newer. */
  lemma NothingNewerTouched(trace: seq<State>, steps: seq<Step>, i: nat, field: Field, g: Generation, h: Generation)
    requires Execution(trace, steps) && i < |steps|
    requires trace[i].memory.generation == g < h
    ensures !Belongs(field, trace, steps, i, h)
    ensures trace[i].memory.sidecar != Some(h)
  {
    ChildIsLastAdopted(trace, steps, i, h);
    forall f: Field, k: nat | GivenAt(f, trace, steps, k, i, h)
      ensures false
    {
      InvAlways(trace, steps, k);
      ExecutionStep(trace, steps, k);
      GivesOwnGeneration(f, trace[k], steps[k]);
      RetiredOnceForAll(trace, steps, k, i);
    }
  }

  // ----- when readiness is stale

  /** Since thread `t` last saw generation `g` active an event of `g` was accepted on another thread. */
  ghost predicate RetiredMeanwhile(trace: seq<State>, steps: seq<Step>, i: nat, t: nat, g: Generation)
    requires i <= |steps| && i <= |trace|
  {
    exists j :: 0 <= j < i && t < |trace[j].threads| && Trusted(trace[j].threads[t]) == Some(g)
                && Accepted(trace[j], steps[j], t, g)
  }

  lemma AcceptedRetires(s: State, step: Step, t: nat, g: Generation)
    requires Enabled(s, step) && Accepted(s, step, t, g)
    ensures g in Next(s, step).memory.retired
  {
    AcceptanceRetires(s.memory, step.thread, |s.threads|, s.threads[step.thread], step.choice, g);
    hide MoveOf;
  }

  /**
   A thread that raises readiness for g makes it stale if and only if g was retired since that thread last saw it
   active; any other step leaves it stale exactly if it was and is not lowered.
   */
  lemma WhenReadinessTurnsStale(trace: seq<State>, steps: seq<Step>, i: nat)
    requires Execution(trace, steps) && i < |steps|
    ensures var gives := Gives(Readiness, Actor(trace[i], steps[i]));
      if gives.Some? then trace[i + 1].memory.stale <==> RetiredMeanwhile(trace, steps, i, steps[i].thread, gives.value)
      else trace[i + 1].memory.stale <==> trace[i].memory.stale && !Touches(Readiness, trace[i], steps[i])
  {
    RunWrites(trace, steps, i);
    if Gives(Readiness, Actor(trace[i], steps[i])).Some? {
      var g, t := Gives(Readiness, Actor(trace[i], steps[i])).value, steps[i].thread;
      assert Trusted(trace[i].threads[t]) == Some(g);
      hide Next, Enabled, Gives, Takes, Trusted, Accepted;
      if trace[i].memory.active != g {
        StaleNeedsAnEventInBetween(trace, steps, i, t);
      }
      if RetiredMeanwhile(trace, steps, i, t, g) {
        var j :| 0 <= j < i && t < |trace[j].threads| && Trusted(trace[j].threads[t]) == Some(g)
                 && Accepted(trace[j], steps[j], t, g);
        AcceptedRetires(trace[j], steps[j], t, g);
        RetiredOnceForAll(trace, steps, j + 1, i);
      }
    }
  }

  /** Step `k` raised readiness for a generation retired meanwhile, and nobody has written readiness since. */
  ghost predicate StaleSince(trace: seq<State>, steps: seq<Step>, k: nat, i: nat)
    requires i <= |steps| && i <= |trace|
  {
    && k < i && var gives := Gives(Readiness, Actor(trace[k], steps[k]));
    && gives.Some? && GivenAt(Readiness, trace, steps, k, i, gives.value)
    && RetiredMeanwhile(trace, steps, k, steps[k].thread, gives.value)
  }

  ghost predicate Stale(trace: seq<State>, steps: seq<Step>, i: nat)
    requires i <= |steps| && i <= |trace|
  {
    exists k: nat :: StaleSince(trace, steps, k, i)
  }

  lemma StaleNext(trace: seq<State>, steps: seq<Step>, i: nat)
    requires i < |steps| && i < |trace|
    ensures Stale(trace, steps, i + 1) <==>
              var gives := Gives(Readiness, Actor(trace[i], steps[i]));
              if gives.Some? then RetiredMeanwhile(trace, steps, i, steps[i].thread, gives.value)
              else Stale(trace, steps, i) && !Touches(Readiness, trace[i], steps[i])
  {
    var gives := Gives(Readiness, Actor(trace[i], steps[i]));
    assert gives.Some? ==> steps[i].Act?;
    hide Actor, Gives, Takes, RetiredMeanwhile;
    if gives.Some? && RetiredMeanwhile(trace, steps, i, steps[i].thread, gives.value) {
      assert StaleSince(trace, steps, i, i + 1);
    }
    if Stale(trace, steps, i + 1) {
      var k: nat :| StaleSince(trace, steps, k, i + 1);
      if k < i {
        assert StaleSince(trace, steps, k, i);
      }
    }
    if Stale(trace, steps, i) && !Touches(Readiness, trace[i], steps[i]) {
      var k: nat :| StaleSince(trace, steps, k, i);
      assert StaleSince(trace, steps, k, i + 1);
    }
  }

  lemma NothingStaleAtFirst(trace: seq<State>, steps: seq<Step>)
    ensures !Stale(trace, steps, 0) && !GivenUp(trace, steps, 0)
  {
    hide Actor, Gives, GivesUp, Wishes, Touches, RetiredMeanwhile;
  }

  /** Readiness is stale exactly while the last write of it raised it for a generation retired since it was checked. */
  lemma {:induction false} StaleExactlyWhen(trace: seq<State>, steps: seq<Step>, i: nat)
    requires Execution(trace, steps) && i < |trace|
    ensures trace[i].memory.stale <==> Stale(trace, steps, i)
  {
    hide Actor, Gives, Takes, Next, Enabled, RetiredMeanwhile, Stale;
    if i == 0 {
      NothingStaleAtFirst(trace, steps);
    } else {
      StaleExactlyWhen(trace, steps, i - 1);
      WhenReadinessTurnsStale(trace, steps, i - 1);
      StaleNext(trace, steps, i - 1);
    }
  }

  // ----- when a recovery is lost

  /**
   Step `k` gave up an upgrade whose rollback had failed too; since then nobody has wished anew or raised readiness.
   */
  ghost predicate GivenUpSince(trace: seq<State>, steps: seq<Step>, k: nat, i: nat)
    requires i <= |steps| && i <= |trace|
  {
    && k < i && GivesUp(Actor(trace[k], steps[k]))
    && forall l :: k < l < i ==> !Wishes(Actor(trace[l], steps[l])) && Gives(Readiness, Actor(trace[l], steps[l])).None?
  }

  ghost predicate GivenUp(trace: seq<State>, steps: seq<Step>, i: nat)
    requires i <= |steps| && i <= |trace|
  {
    exists k: nat :: GivenUpSince(trace, steps, k, i)
  }

  lemma GivenUpNext(trace: seq<State>, steps: seq<Step>, i: nat)
    requires i < |steps| && i < |trace|
    ensures GivenUp(trace, steps, i + 1) <==>
              var pc := Actor(trace[i], steps[i]);
              GivesUp(pc) || (GivenUp(trace, steps, i) && !Wishes(pc) && Gives(Readiness, pc).None?)
  {
    hide Actor, Gives, GivesUp, Wishes;
    var pc := Actor(trace[i], steps[i]);
    if GivesUp(pc) {
      assert GivenUpSince(trace, steps, i, i + 1);
    }
    if GivenUp(trace, steps, i + 1) {
      var k: nat :| GivenUpSince(trace, steps, k, i + 1);
      if k < i {
        assert GivenUpSince(trace, steps, k, i);
      }
    }
    if GivenUp(trace, steps, i) && !Wishes(pc) && Gives(Readiness, pc).None? {
      var k: nat :| GivenUpSince(trace, steps, k, i);
      assert GivenUpSince(trace, steps, k, i + 1);
    }
  }

  lemma {:induction false} AbandonedExactlyWhen(trace: seq<State>, steps: seq<Step>, i: nat)
    requires Execution(trace, steps) && i < |trace|
    ensures trace[i].memory.abandoned <==> GivenUp(trace, steps, i)
  {
    hide Actor, Gives, Takes, Next, Enabled, GivesUp, Wishes, GivenUp, Draws;
    if i == 0 {
      NothingStaleAtFirst(trace, steps);
    } else {
      AbandonedExactlyWhen(trace, steps, i - 1);
      RunWrites(trace, steps, i - 1);
      GivenUpNext(trace, steps, i - 1);
    }
  }

  /**
   A core that should run is down with nobody to recover it if and only if an upgrade gave up on it, or readiness was
   raised for a generation retired since it was checked, and nothing has happened since to mend that.
   */
  lemma RecoveryLostExactlyWhen(trace: seq<State>, steps: seq<Step>, i: nat)
    requires Execution(trace, steps) && i < |trace| && trace[i].memory.desired
    requires forall t :: 0 <= t < |trace[i].threads| ==> Idle(trace[i].threads[t]) && !OwnsSlot(trace[i].threads[t])
    ensures var m := trace[i].memory;
      (!m.ready || m.active == 0) <==>
        GivenUp(trace, steps, i) || Stale(trace, steps, i)
  {
    hide Idle, OwnsSlot, GivenUp, Stale, Next, Enabled;
    AbandonedExactlyWhen(trace, steps, i);
    StaleExactlyWhen(trace, steps, i);
    NoLostRecovery(trace, steps, i);
    InvAlways(trace, steps, i);
    hide LockKept, SlotKept, QuietKept, NotLost, DarkKept, BoundsDrawn, GenerationsKept, SomeoneClears;
  }
}
