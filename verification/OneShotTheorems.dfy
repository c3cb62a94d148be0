/** What holds over every run of the one-shot scheduler. */
module OneShotTheorems {
  import opened Wrappers
  import opened OneShotMaps
  import opened OneShotMachine
  import opened OneShotInvariant

  lemma InvInit()
    ensures Inv(INIT)
  {
  }

  lemma {:induction false} InvAlways(trace: seq<State>, steps: seq<Step>, i: nat)
    requires Run(trace, steps) && i < |trace|
    ensures Inv(trace[i])
  {
    hide Inv, Next, Enabled;
    if i == 0 {
      InvInit();
    } else {
      InvAlways(trace, steps, i - 1);
      InvNext(trace[i - 1], steps[i - 1]);
    }
  }

  /**
   In every reachable state each generation has fired at most once, not before its own deadline, with its own job and
   key.
   */
  lemma FiringDiscipline(trace: seq<State>, steps: seq<Step>, i: nat)
    requires Run(trace, steps) && i < |trace|
    ensures var s := trace[i];
      && (forall a, b :: 0 <= a < b < |s.log| ==> s.log[a].generation != s.log[b].generation)
      && (forall f :: f in s.log ==>
            && f.generation in s.book
            && s.book[f.generation].deadline <= f.time
            && s.book[f.generation].job == f.job && s.book[f.generation].key == f.key)
      && (forall g :: g in s.book ==> (Logged(s.log, g) <==> s.book[g].Fired()))
  {
    InvAlways(trace, steps, i);
  }

  // ----- delays

  lemma ClockNext(s: State, step: Step)
    requires Enabled(s, step)
    ensures Next(s, step).now == s.now + (if step.Tick? then step.elapsed else 0)
  {
    hide Install, InstallOutcome, Register, Unregister, Tokens, Drained, Undrained, Targets, WithFate, WithPc;
  }

  /** The clock moves by what elapses and by nothing else. */
  lemma ClockRuns(trace: seq<State>, steps: seq<Step>, i: nat)
    requires Run(trace, steps) && i < |steps|
    ensures trace[i + 1].now == trace[i].now + (if steps[i].Tick? then steps[i].elapsed else 0)
  {
    hide Next, Enabled;
    ClockNext(trace[i], steps[i]);
  }

  /**
   What was asked for is what is kept: the generation drawn has the key and job of the call and its delay counted from
   the time of the draw, for good. It fires with them, and not before the delay is over.
   */
  lemma DelayIsKept(trace: seq<State>, steps: seq<Step>, i: nat, j: nat, key: Key, delay: Time, job: Job)
    requires Run(trace, steps) && i < j < |trace| && steps[i] == Draw(key, delay, job)
    ensures var g := trace[i].next; var s := trace[j];
      && g in s.book && s.book[g].key == key && s.book[g].job == job
      && s.book[g].deadline == trace[i].now + delay
      && (forall f :: f in s.log && f.generation == g ==>
            f.key == key && f.job == job && trace[i].now + delay <= f.time <= s.now)
      && (Logged(s.log, g) ==> trace[i].now + delay <= s.now)
  {
    var g := trace[i].next;
    assert g in trace[i + 1].book && trace[i + 1].book[g] == Record(key, trace[i].now + delay, job, Drawn);
    RunContinues(trace, steps, i + 1, j);
    FiringDiscipline(trace, steps, j);
    InvAlways(trace, steps, j);
    hide Next, Enabled, Owners, Wakes, ExecutingBound, RunningExact, SnapshotsTrue, FiredLogged, CancellersExact;
  }

  // ----- fates

  predicate Final(fate: Fate) {
    fate.Rejected? || fate.Replaced? || fate.Removed? || fate.Finished? || fate.Interrupted?
  }

  /** A record never changes its key, deadline or job, and a final fate never changes. */
  ghost predicate Continues(book: Book, book': Book) {
    forall g :: g in book ==>
      && g in book'
      && book'[g] == book[g].(fate := book'[g].fate)
      && (Final(book[g].fate) ==> book'[g].fate == book[g].fate)
  }

  /** Giving a new fate to a record that has none of the final ones. */
  lemma FateContinues(book: Book, g: Generation, fate: Fate)
    requires g in book ==> !Final(book[g].fate)
    ensures Continues(book, WithFate(book, g, fate))
  {
  }

  lemma ScheduleContinues(s: State, g: Generation)
    requires Inv(s) && Enabled(s, Schedule(g))
    ensures Continues(s.book, TakeSchedule(s, g).book)
  {
    hide Wakes, Firings, BookKept, PendingInMap, ClaimLocked;
    FateContinues(s.book, g, Fate.Pending);
    FateContinues(s.book, g, Fate.Rejected);
    if s.book[g].key in s.jobs {
      FateContinues(WithFate(s.book, g, Fate.Pending), s.jobs[s.book[g].key].generation, Replaced);
    }
  }

  lemma FreshContinues(s: State, r: Record)
    requires Owners(s)
    ensures Continues(s.book, s.book[s.next := r])
  {
    hide EntriesOwned, PendingInMap, ClaimLocked;
  }

  lemma TakeContinues(s: State, scope: Scope)
    ensures Continues(s.book, TakeCancel(s, scope).book)
  {
  }

  lemma ReadContinues(s: State, w: Generation)
    requires At(s, w)
    ensures Continues(s.book, TakeRead(s, w).book)
  {
  }

  lemma AbortContinues(s: State, c: nat)
    requires c < |s.cancellers|
    ensures Continues(s.book, TakeAbort(s, c).book)
  {
  }

  lemma SameContinues(book: Book)
    ensures Continues(book, book)
  {
  }

  lemma CheckContinues(s: State, w: Generation)
    requires Inv(s) && Enabled(s, Check(w))
    ensures Continues(s.book, TakeCheck(s, w).book)
  {
    hide Wakes, Firings, BookKept, PendingInMap, ClaimLocked;
    if s.workers[w].key in s.jobs && s.jobs[s.workers[w].key].generation == s.workers[w].pc.generation {
      FateContinues(s.book, s.workers[w].pc.generation, Claimed(w));
    }
  }

  lemma BeginContinues(s: State, w: Generation)
    requires Inv(s) && Enabled(s, Begin(w))
    ensures Continues(s.book, TakeBegin(s, w).book)
  {
    hide Wakes, Firings, BookKept, PendingInMap, EntriesOwned;
    FateContinues(s.book, s.workers[w].pc.generation, Executing(w));
  }

  lemma EndContinues(s: State, w: Generation, fate: Fate)
    requires Inv(s) && At(s, w) && s.workers[w].pc.Running?
    ensures Continues(s.book, TakeEnd(s, w, fate).book)
  {
    hide Wakes, Owners, RunningExact, SnapshotsTrue, LogTrue, FiredLogged, CancellersExact;
    FateContinues(s.book, s.workers[w].pc.generation, fate);
  }

  lemma StepContinues(s: State, step: Step)
    requires Inv(s) && Enabled(s, step)
    ensures Continues(s.book, Next(s, step).book)
  {
    hide Owners, Firings, Wakes, Continues, TakeSchedule, TakeRead, TakeCheck, TakeBegin, TakeEnd, TakeCancel,
        TakeAbort;
    match step
    case Draw(key, delay, job) => FreshContinues(s, Record(key, s.now + delay, job, Drawn));
    case Schedule(g) => ScheduleContinues(s, g);
    case Read(w) => ReadContinues(s, w);
    case Check(w) => CheckContinues(s, w);
    case Begin(w) => BeginContinues(s, w);
    case Finish(w) => EndContinues(s, w, Finished);
    case Abort(w) =>
      SameContinues(s.book);
      if s.workers[w].pc.Running? {
        EndContinues(s, w, Interrupted);
      }
    case CancelTake(scope) => TakeContinues(s, scope);
    case CancelAbort(c) => AbortContinues(s, c);
    case _ => SameContinues(s.book);
  }

  lemma {:induction false} RunContinues(trace: seq<State>, steps: seq<Step>, i: nat, j: nat)
    requires Run(trace, steps) && i <= j < |trace|
    ensures Continues(trace[i].book, trace[j].book)
    decreases j
  {
    hide Next, Enabled, Inv;
    if i < j {
      RunContinues(trace, steps, i, j - 1);
      InvAlways(trace, steps, j - 1);
      StepContinues(trace[j - 1], steps[j - 1]);
    }
  }

  /** A generation overwritten or taken out while pending, or rejected, never fires afterwards. */
  lemma SupersededNeverFires(trace: seq<State>, steps: seq<Step>, i: nat, j: nat, g: Generation)
    requires Run(trace, steps) && i <= j < |trace|
    requires g in trace[i].book
    requires trace[i].book[g].fate.Replaced? || trace[i].book[g].fate.Removed? || trace[i].book[g].fate.Rejected?
    ensures !Logged(trace[j].log, g)
  {
    hide Inv;
    RunContinues(trace, steps, i, j);
    FiringDiscipline(trace, steps, j);
  }

  // ----- cancel

  /** What `cancel` answers: whether it took an entry out or found a token. */
  predicate Answer(c: Canceller)
    requires c.tokens.Some?
  {
    c.removed != map[] || c.tokens.value != {}
  }

  lemma StepKeepsTargets(s: State, step: Step, c: nat)
    requires Enabled(s, step) && c < |s.cancellers|
    ensures var t := Next(s, step);
      && c < |t.cancellers| && t.cancellers[c].targets == s.cancellers[c].targets
      && t.cancellers[c].removed == s.cancellers[c].removed
  {
  }

  lemma {:induction false} RunKeepsTargets(trace: seq<State>, steps: seq<Step>, i: nat, j: nat, c: nat)
    requires Run(trace, steps) && i <= j < |trace| && c < |trace[i].cancellers|
    ensures c < |trace[j].cancellers| && trace[j].cancellers[c].targets == trace[i].cancellers[c].targets
    ensures trace[j].cancellers[c].removed == trace[i].cancellers[c].removed
    decreases j
  {
    hide Next, Enabled;
    if i < j {
      RunKeepsTargets(trace, steps, i, j - 1, c);
      StepKeepsTargets(trace[j - 1], steps[j - 1], c);
    }
  }

  /**
   Between its two critical sections a canceller misses nobody: whatever was pending or executing
   (and cancellable) when it took the pending lock has, once the call returned, been taken out by it,
   had its token cancelled, or come to its end.
   */
  lemma CancelHasNoGap(trace: seq<State>, steps: seq<Step>, i: nat, j: nat, g: Generation)
    requires Run(trace, steps) && i < j < |trace|
    requires steps[i].CancelTake?
    requires g in trace[i].book && steps[i].scope.Covers(trace[i].book[g].key) && trace[i].book[g].Cancellable()
    ensures var c := |trace[i].cancellers|;
      && c < |trace[j].cancellers|
      && (trace[j].cancellers[c].signalled ==>
            && g in trace[j].book
            && (trace[j].book[g].fate == Removed(c) || g in trace[j].signalled || trace[j].book[g].Ended()))
  {
    var c := |trace[i].cancellers|;
    RunKeepsTargets(trace, steps, i + 1, j, c);
    assert trace[i + 1].cancellers[c].targets == Targets(trace[i], steps[i].scope);
    InvAlways(trace, steps, j);
    hide Owners, Wakes, ExecutingBound, RunningExact, SnapshotsTrue, LogTrue, FiredLogged;
    assert TargetsHandled(trace[j].cancellers[c], c, trace[j].book, trace[j].signalled);
  }

  /** An entry of the scope is what gets taken out, and only entries of the scope. */
  lemma TakenIsPending(s: State, scope: Scope, g: Generation)
    requires Inv(s) && Enabled(s, CancelTake(scope)) && g in s.book
    ensures var t := Next(s, CancelTake(scope));
      && (t.book[g].fate == Removed(|s.cancellers|) && s.book[g].fate != Removed(|s.cancellers|) <==>
            s.book[g].fate.Pending? && scope.Covers(s.book[g].key))
      && (s.book[g].fate.Pending? && scope.Covers(s.book[g].key) ==>
            s.book[g].key in t.cancellers[|s.cancellers|].removed
            && t.cancellers[|s.cancellers|].removed[s.book[g].key].generation == g)
  {
    hide Firings, Wakes;
  }

  /** A `false` answer means that everything the call was responsible for is over. */
  lemma FalseAnswerMeansOver(trace: seq<State>, steps: seq<Step>, i: nat, j: nat, g: Generation)
    requires Run(trace, steps) && i < j < |trace|
    requires steps[i].CancelTake?
    requires g in trace[i].book && steps[i].scope.Covers(trace[i].book[g].key) && trace[i].book[g].Cancellable()
    requires |trace[i].cancellers| < |trace[j].cancellers|
    requires trace[j].cancellers[|trace[i].cancellers|].tokens.Some?
    requires !Answer(trace[j].cancellers[|trace[i].cancellers|])
    ensures g in trace[j].book && trace[j].book[g].Ended()
  {
    var c := |trace[i].cancellers|;
    RunKeepsTargets(trace, steps, i + 1, j, c);
    RunContinues(trace, steps, i + 1, j);
    InvAlways(trace, steps, i);
    InvAlways(trace, steps, j);
    TakenIsPending(trace[i], steps[i].scope, g);
    hide Owners, Wakes, ExecutingBound, RunningExact, SnapshotsTrue, LogTrue, FiredLogged;
    assert trace[i + 1].cancellers[c].targets == Targets(trace[i], steps[i].scope);
    assert TargetsHandled(trace[j].cancellers[c], c, trace[j].book, trace[j].signalled);
    if !trace[i].book[g].fate.Pending? {
      RunContinues(trace, steps, i, j);
      NeverRemovedLater(trace, steps, i + 1, j, g, c);
    }
  }

  /** The tokens collected are those of cancellable jobs being executed in the scope. */
  lemma TokensExactly(s: State, scope: Scope, g: Generation)
    requires Inv(s)
    ensures g in Tokens(s.running, scope) <==>
              g in s.book && s.book[g].fate.Executing? && s.book[g].job.cancellable && scope.Covers(s.book[g].key)
  {
    hide Owners, Wakes, ExecutingBound, SnapshotsTrue, LogTrue, FiredLogged, CancellersExact;
    if g in Tokens(s.running, scope) {
      var k, n :| k in s.running && scope.Covers(k) && 0 <= n < |s.running[k]| && s.running[k][n].token
                  && s.running[k][n].generation == g;
      assert s.running[k][n] in s.running[k];
    }
    if g in s.book && s.book[g].fate.Executing? && s.book[g].job.cancellable && scope.Covers(s.book[g].key) {
      var k := s.book[g].key;
      var n :| 0 <= n < |s.running[k]| && s.running[k][n] == RunningEntry(g, true);
    }
  }

  /** At some earlier step canceller `c` found the job of `g` executing, cancellable and in its scope. */
  ghost predicate FoundRunning(trace: seq<State>, steps: seq<Step>, j: nat, c: nat, g: Generation)
    requires j <= |steps| && j <= |trace|
  {
    exists i :: 0 <= i < j && steps[i] == CancelCollect(c) && c < |trace[i].cancellers| && g in trace[i].book
      && trace[i].book[g].fate.Executing? && trace[i].book[g].job.cancellable
      && trace[i].cancellers[c].scope.Covers(trace[i].book[g].key)
  }

  lemma CollectedNext(s: State, step: Step, c: nat, g: Generation)
    requires Inv(s) && Enabled(s, step) && c < |Next(s, step).cancellers|
    requires Next(s, step).cancellers[c].tokens.Some? && g in Next(s, step).cancellers[c].tokens.value
    ensures c < |s.cancellers|
    ensures (s.cancellers[c].tokens.Some? && g in s.cancellers[c].tokens.value)
            || (step == CancelCollect(c) && g in Tokens(s.running, s.cancellers[c].scope))
  {
    hide Inv, Install, InstallOutcome, Register, Unregister, Tokens, Drained, Undrained, Targets, WithFate;
  }

  /** What a canceller has collected it found running. */
  lemma {:induction false} CollectedWasRunning(trace: seq<State>, steps: seq<Step>, j: nat, c: nat, g: Generation)
    requires Run(trace, steps) && j < |trace| && c < |trace[j].cancellers|
    requires trace[j].cancellers[c].tokens.Some? && g in trace[j].cancellers[c].tokens.value
    ensures FoundRunning(trace, steps, j, c, g)
  {
    hide Inv, Next, Enabled, Tokens;
    assert j > 0;
    InvAlways(trace, steps, j - 1);
    CollectedNext(trace[j - 1], steps[j - 1], c, g);
    var s := trace[j - 1];
    if s.cancellers[c].tokens.Some? && g in s.cancellers[c].tokens.value {
      CollectedWasRunning(trace, steps, j - 1, c, g);
    } else {
      TokensExactly(s, s.cancellers[c].scope, g);
    }
  }

  lemma SignalledNext(s: State, step: Step, g: Generation)
    requires Enabled(s, step) && g in Next(s, step).signalled
    ensures g in s.signalled || (
              && step.CancelSignal? && step.canceller < |s.cancellers| && s.cancellers[step.canceller].tokens.Some?
              && g in s.cancellers[step.canceller].tokens.value)
  {
    hide Install, InstallOutcome, Register, Unregister, Tokens, Drained, Undrained, Targets, WithFate;
  }

  /** Nothing is signalled in vain: some cancel found the job executing, cancellable and in its scope. */
  lemma {:induction false} SignalledWasRunning(trace: seq<State>, steps: seq<Step>, j: nat, g: Generation)
    requires Run(trace, steps) && j < |trace| && g in trace[j].signalled
    ensures exists c: nat :: FoundRunning(trace, steps, j, c, g)
  {
    assert j > 0;
    SignalledNext(trace[j - 1], steps[j - 1], g);
    hide Inv, Next, Enabled;
    if g in trace[j - 1].signalled {
      SignalledWasRunning(trace, steps, j - 1, g);
      var c: nat :| FoundRunning(trace, steps, j - 1, c, g);
      assert FoundRunning(trace, steps, j, c, g);
    } else {
      var c := steps[j - 1].canceller;
      CollectedWasRunning(trace, steps, j - 1, c, g);
      assert FoundRunning(trace, steps, j, c, g);
    }
  }

  lemma OthersDoNotRemove(s: State, step: Step, g: Generation, c: nat)
    requires Enabled(s, step) && c < |s.cancellers|
    requires g in s.book && s.book[g].fate != Removed(c)
    ensures g in Next(s, step).book && Next(s, step).book[g].fate != Removed(c)
  {
    hide Install, InstallOutcome, Register, Unregister, Tokens, Drained, Undrained, Targets;
  }

  /** Only its own first critical section gives a generation the fate `Removed(c)`. */
  lemma {:induction false} NeverRemovedLater(trace: seq<State>, steps: seq<Step>, i: nat, j: nat, g: Generation, c: nat)
    requires Run(trace, steps) && i <= j < |trace| && c < |trace[i].cancellers|
    requires g in trace[i].book && trace[i].book[g].fate != Removed(c)
    ensures g in trace[j].book && trace[j].book[g].fate != Removed(c)
    decreases j
  {
    hide Next, Enabled;
    if i < j {
      NeverRemovedLater(trace, steps, i, j - 1, g, c);
      RunKeepsTargets(trace, steps, i, j - 1, c);
      OthersDoNotRemove(trace[j - 1], steps[j - 1], g, c);
    }
  }

  // ----- nobody is orphaned, nothing is stuck

  /** The step an entry's own worker takes next, once the clock has reached `wake` and the lock is free. */
  function OwnerStep(s: State, w: Generation): Step
    requires At(s, w) && Attentive(s.workers[w].pc)
  {
    match s.workers[w].pc
    case Reading => Read(w)
    case Waiting(_, _, notify) => if notify in s.permits then Wake(w) else Elapse(w)
    case _ => Check(w)
  }

  function WakeTime(s: State, w: Generation): Time
    requires At(s, w)
  {
    if s.workers[w].pc.Waiting? && s.workers[w].pc.notify !in s.permits then s.workers[w].pc.deadline else 0
  }

  /** Another worker consumes the wake-up of an entry's own worker, which waits on an outdated snapshot. */
  ghost predicate Steals(s: State, step: Step, w: Generation) {
    && step.Wake? && step.worker != w && Enabled(s, step) && s.workers[step.worker].pc.notify == w
    && Outdated(s.jobs, s.workers, w)
  }

  /** The worker reads again, or another update of its entry stores a new wake-up. */
  ghost predicate Restores(s: State, step: Step, w: Generation) {
    || step == Read(w)
    || (step.Schedule? && Enabled(s, step) && var k := s.book[step.generation].key;
          k in s.jobs && s.jobs[k].worker == w)
  }

  /** A wake-up was stolen from the worker, and it has neither read nor been notified since. */
  ghost predicate Stolen(trace: seq<State>, steps: seq<Step>, i: nat, w: Generation)
    requires i < |trace| && i <= |steps|
  {
    exists j :: 0 <= j < i && Steals(trace[j], steps[j], w) && forall m :: j < m < i ==>
        !Restores(trace[m], steps[m], w)
  }

  lemma StolenNext(s: State, step: Step, w: Generation)
    requires Enabled(s, step)
    ensures w in Next(s, step).stolen <==> Steals(s, step, w) || (w in s.stolen && !Restores(s, step, w))
  {
  }

  lemma {:induction false} StolenIsHistory(trace: seq<State>, steps: seq<Step>, i: nat, w: Generation)
    requires Run(trace, steps) && i < |trace|
    ensures w in trace[i].stolen <==> Stolen(trace, steps, i, w)
  {
    hide Next, Enabled, Steals, Restores;
    if i > 0 {
      StolenIsHistory(trace, steps, i - 1, w);
      StolenNext(trace[i - 1], steps[i - 1], w);
      if Steals(trace[i - 1], steps[i - 1], w) {
        assert Stolen(trace, steps, i, w);
      } else if Stolen(trace, steps, i - 1, w) && !Restores(trace[i - 1], steps[i - 1], w) {
        var j :| 0 <= j < i - 1 && Steals(trace[j], steps[j], w)
                 && forall m :: j < m < i - 1 ==> !Restores(trace[m], steps[m], w);
        assert forall m :: j < m < i ==> !Restores(trace[m], steps[m], w);
      }
    }
  }

  /**
   Every pending entry has a live worker of its own, bound to its key and not aborted, whose next step
   only waits for the clock and the pending lock. While it waits with no wake-up stored, it sleeps on an outdated
   snapshot if and only if another worker consumed its wake-up and it has not been notified since; otherwise it
   sleeps towards the entry's deadline.
   */
  lemma NoOrphan(trace: seq<State>, steps: seq<Step>, i: nat, k: Key)
    requires Run(trace, steps) && i < |trace| && k in trace[i].jobs
    ensures var s := trace[i]; var e := s.jobs[k];
      && e.generation in s.book && s.book[e.generation] == Record(k, e.deadline, e.job, Fate.Pending)
      && At(s, e.worker) && s.workers[e.worker].key == k && !s.workers[e.worker].aborted
      && Attentive(s.workers[e.worker].pc)
      && (s.lock.None? && WakeTime(s, e.worker) <= s.now ==> Enabled(s, OwnerStep(s, e.worker)))
      && (s.workers[e.worker].pc.Waiting? ==>
            var pc := s.workers[e.worker].pc;
            && pc.notify == e.worker
            && (pc.generation != e.generation && e.worker !in s.permits <==> Stolen(trace, steps, i, e.worker))
            && (e.worker in s.permits || Stolen(trace, steps, i, e.worker) || WakeTime(s, e.worker) == e.deadline))
  {
    InvAlways(trace, steps, i);
    StolenIsHistory(trace, steps, i, trace[i].jobs[k].worker);
    hide RunningExact, LogTrue, FiredLogged, CancellersExact, Stolen;
  }

  /** Whoever holds the pending lock can go on, so waiting for the lock ends. */
  lemma LockHolderGoesOn(trace: seq<State>, steps: seq<Step>, i: nat)
    requires Run(trace, steps) && i < |trace| && trace[i].lock.Some?
    ensures Enabled(trace[i], Begin(trace[i].lock.value))
    ensures Next(trace[i], Begin(trace[i].lock.value)).lock.None?
  {
    InvAlways(trace, steps, i);
    hide Firings, Wakes;
  }

  /** A generation is listed as running under a key exactly while a worker of that key executes it; no list is empty. */
  lemma RunningListsExecuting(trace: seq<State>, steps: seq<Step>, i: nat, k: Key, g: Generation)
    requires Run(trace, steps) && i < |trace|
    ensures var s := trace[i];
      && (k in s.running && Listed(s.running[k], g) <==>
            exists w :: w in s.workers && s.workers[w].key == k && s.workers[w].pc == Pc.Running(g))
      && (k in s.running ==> s.running[k] != [] && DistinctGenerations(s.running[k]))
  {
    InvAlways(trace, steps, i);
    hide Owners, Wakes, SnapshotsTrue, LogTrue, FiredLogged, CancellersExact;
    var s := trace[i];
    if k in s.running && Listed(s.running[k], g) {
      var n :| 0 <= n < |s.running[k]| && s.running[k][n].generation == g;
      assert s.running[k][n] in s.running[k];
      assert s.workers[s.book[g].fate.worker].pc == Pc.Running(g);
    }
    if w :| w in s.workers && s.workers[w].key == k && s.workers[w].pc == Pc.Running(g) {
      var n :| 0 <= n < |s.running[k]| && s.running[k][n] == RunningEntry(g, s.book[g].job.cancellable);
    }
  }

  /** The number of pending entries is bounded, yet a key that is pending can always be rescheduled. */
  lemma LimitHolds(trace: seq<State>, steps: seq<Step>, i: nat)
    requires Run(trace, steps) && i < |trace|
    ensures |trace[i].jobs| <= 256
    ensures forall g :: Enabled(trace[i], Schedule(g)) && trace[i].book[g].key in trace[i].jobs ==>
              Next(trace[i], Schedule(g)).book[g].fate.Pending?
  {
    InvAlways(trace, steps, i);
    hide Firings;
  }
}
