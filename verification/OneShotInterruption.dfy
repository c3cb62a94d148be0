/** When a job that has been claimed can still be cut short, and when it runs to its end. */
module OneShotInterruption {
  import opened OneShotMaps
  import opened OneShotMachine
  import opened OneShotInvariant
  import opened OneShotTheorems

  /** A cancel took out an entry that this worker had been spawned for. */
  ghost predicate Owned(removed: OneShotMaps.Pending, w: Generation) {
    exists k :: k in removed && removed[k].worker == w
  }

  ghost predicate TakenOut(cancellers: seq<Canceller>, w: Generation) {
    exists c :: 0 <= c < |cancellers| && Owned(cancellers[c].removed, w)
  }

  /** As `TakenOut`, by a cancel that got to its abort. */
  ghost predicate AbortSent(cancellers: seq<Canceller>, w: Generation) {
    exists c :: 0 <= c < |cancellers| && cancellers[c].aborted && Owned(cancellers[c].removed, w)
  }

  /** The job of generation `g` is in this worker's hands. */
  predicate HasJob(workers: Workers, w: Generation, g: Generation) {
    w in workers && (workers[w].pc.Holding? || workers[w].pc.Running?) && workers[w].pc.generation == g
  }

  // ----- a worker is aborted exactly if the entry it was spawned for was taken out

  /** Everything but an abort, and the start of a new worker or a new cancel, leaves aborts as they are. */
  lemma AbortsNext(s: State, step: Step, w: Generation)
    requires Enabled(s, step) && !step.CancelTake? && !step.CancelAbort? && w in s.workers
    requires step.Schedule? ==> step.generation != w
    ensures var t := Next(s, step);
      && w in t.workers && t.workers[w].aborted == s.workers[w].aborted
      && (AbortSent(t.cancellers, w) <==> AbortSent(s.cancellers, w))
      && (TakenOut(t.cancellers, w) <==> TakenOut(s.cancellers, w))
  {
    var t := Next(s, step);
    assert |t.cancellers| == |s.cancellers|;
    assert forall c :: 0 <= c < |s.cancellers| ==>
             t.cancellers[c].removed == s.cancellers[c].removed && t.cancellers[c].aborted == s.cancellers[c].aborted;
  }

  lemma CancelAbortNext(s: State, c: nat, w: Generation)
    requires Enabled(s, CancelAbort(c)) && w in s.workers
    ensures var t := Next(s, CancelAbort(c));
      && w in t.workers && t.workers[w].aborted == (s.workers[w].aborted || Owned(s.cancellers[c].removed, w))
      && (AbortSent(t.cancellers, w) <==> AbortSent(s.cancellers, w) || Owned(s.cancellers[c].removed, w))
      && (TakenOut(t.cancellers, w) <==> TakenOut(s.cancellers, w))
  {
    var t := Next(s, CancelAbort(c));
    assert forall d :: 0 <= d < |s.cancellers| ==>
             t.cancellers[d].removed == s.cancellers[d].removed
                 && t.cancellers[d].aborted == (s.cancellers[d].aborted || d == c);
    if Owned(s.cancellers[c].removed, w) {
      assert t.cancellers[c].aborted;
    }
  }

  /** A cancel only takes out workers that have not claimed a job. */
  lemma CancelTakeNext(s: State, scope: Scope, w: Generation)
    requires Inv(s) && Enabled(s, CancelTake(scope)) && w in s.workers
    ensures var t := Next(s, CancelTake(scope));
      && w in t.workers && t.workers[w] == s.workers[w]
      && (AbortSent(t.cancellers, w) <==> AbortSent(s.cancellers, w))
      && (TakenOut(s.cancellers, w) ==> TakenOut(t.cancellers, w))
      && (TakenOut(t.cancellers, w) && !Attentive(s.workers[w].pc) ==> TakenOut(s.cancellers, w))
  {
    hide Firings, Wakes, BookKept, PendingInMap, ClaimLocked;
    var t := Next(s, CancelTake(scope));
    assert forall c :: 0 <= c < |s.cancellers| ==> t.cancellers[c] == s.cancellers[c];
    if Owned(Drained(s.jobs, scope), w) {
      var k :| k in Drained(s.jobs, scope) && Drained(s.jobs, scope)[k].worker == w;
      assert s.jobs[k].worker == w;
    }
  }

  lemma SentIsTaken(cancellers: seq<Canceller>, w: Generation)
    requires AbortSent(cancellers, w)
    ensures TakenOut(cancellers, w)
  {
  }

  lemma TakenOutIsKnown(s: State, w: Generation)
    requires RemovedDisowned(s.cancellers, s.jobs, s.workers) && TakenOut(s.cancellers, w)
    ensures w in s.workers
  {
  }

  /** A worker that has just been spawned was neither taken out nor aborted. */
  lemma SpawnNext(s: State, g: Generation)
    requires Inv(s) && Enabled(s, Schedule(g)) && g in Next(s, Schedule(g)).workers
    ensures var t := Next(s, Schedule(g)); !t.workers[g].aborted && !AbortSent(t.cancellers, g)
  {
    hide Firings, EntriesOwned, PendingInMap, ClaimLocked, WakeStored, LimitKept, RemovedDisowned, TakenOut;
    if AbortSent(s.cancellers, g) {
      SentIsTaken(s.cancellers, g);
      TakenOutIsKnown(s, g);
    }
  }

  ghost predicate AbortExact(s: State, w: Generation) {
    w in s.workers ==> (s.workers[w].aborted <==> AbortSent(s.cancellers, w))
  }

  lemma AbortExactNext(s: State, step: Step, w: Generation)
    requires Inv(s) && Enabled(s, step) && AbortExact(s, w)
    ensures AbortExact(Next(s, step), w)
  {
    hide Inv, Next, Enabled, AbortSent, TakenOut, Owned, Attentive;
    if w in Next(s, step).workers {
      if step == Schedule(w) {
        SpawnNext(s, w);
      } else {
        OldWorker(s, step, w);
        match step
        case CancelTake(scope) => CancelTakeNext(s, scope, w);
        case CancelAbort(c) => CancelAbortNext(s, c, w);
        case _ => AbortsNext(s, step, w);
      }
    }
  }

  lemma OldWorker(s: State, step: Step, w: Generation)
    requires Enabled(s, step) && w in Next(s, step).workers && step != Schedule(w)
    ensures w in s.workers
  {
  }

  lemma NobodyAbortedAtFirst(w: Generation)
    ensures AbortExact(INIT, w)
  {
  }

  /**
   In every state of every run a worker is marked aborted if and only if a cancel that took out its entry got to its
   abort.
   */
  lemma {:induction false} AbortedExactlyWhen(trace: seq<State>, steps: seq<Step>, i: nat, w: Generation)
    requires Run(trace, steps) && i < |trace|
    ensures AbortExact(trace[i], w)
  {
    hide Inv, Next, Enabled, AbortExact;
    if i == 0 {
      NobodyAbortedAtFirst(w);
    } else {
      AbortedExactlyWhen(trace, steps, i - 1, w);
      InvAlways(trace, steps, i - 1);
      AbortExactNext(trace[i - 1], steps[i - 1], w);
    }
  }

  // ----- what can become of a job in a worker's hands

  /**
   It stays there until the job returns or the worker is aborted; by then nobody can take its worker's entry out any
   more.
   */
  lemma HandsNext(s: State, step: Step, w: Generation, g: Generation)
    requires Inv(s) && Enabled(s, step) && HasJob(s.workers, w, g)
    ensures var t := Next(s, step);
      && (TakenOut(t.cancellers, w) <==> TakenOut(s.cancellers, w))
      && if step == Finish(w) then g in t.book && t.book[g].fate.Finished?
         else if step == Abort(w) then s.workers[w].aborted && g in t.book && t.book[g].fate.Interrupted?
         else HasJob(t.workers, w, g)
  {
    WorkerIsNotNew(s, step, w);
    if step.CancelTake? {
      CancelTakeNext(s, step.scope, w);
    } else if step.CancelAbort? {
      CancelAbortNext(s, step.canceller, w);
    } else {
      AbortsNext(s, step, w);
    }
    hide Wakes, RunningExact, SnapshotsTrue, LogTrue, FiredLogged, CancellersExact, EntriesOwned, PendingInMap;
    hide TakenOut, AbortSent, Owned;
    JobMoves(s, step, w, g);
  }

  lemma WorkerIsNotNew(s: State, step: Step, w: Generation)
    requires Inv(s) && Enabled(s, step) && w in s.workers
    ensures step != Schedule(w)
  {
    hide Firings, Wakes, EntriesOwned, PendingInMap, ClaimLocked;
  }

  /** A step taken by this very worker. */
  predicate Own(step: Step, w: Generation) {
    || step == Read(w) || step == Elapse(w) || step == Wake(w) || step == Check(w) || step == Begin(w)
    || step == Finish(w) || step == Abort(w)
  }

  lemma OthersLeaveIt(s: State, step: Step, w: Generation)
    requires Enabled(s, step) && w in s.workers && step != Schedule(w) && !Own(step, w)
    ensures w in Next(s, step).workers && Next(s, step).workers[w].pc == s.workers[w].pc
  {
    hide Install, InstallOutcome, Register, Unregister, Tokens, Drained, Undrained, Targets, WithFate;
  }

  lemma JobMoves(s: State, step: Step, w: Generation, g: Generation)
    requires Owners(s) && Firings(s) && Enabled(s, step) && HasJob(s.workers, w, g) && step != Schedule(w)
    ensures var t := Next(s, step);
      if step == Finish(w) then g in t.book && t.book[g].fate.Finished?
      else if step == Abort(w) then s.workers[w].aborted && g in t.book && t.book[g].fate.Interrupted?
      else HasJob(t.workers, w, g)
  {
    hide Register, Unregister, RunningExact, SnapshotsTrue, LogTrue, FiredLogged, CancellersExact, EntriesOwned;
    hide PendingInMap, BookKept;
    if !Own(step, w) {
      OthersLeaveIt(s, step, w);
    }
  }

  /** Until it is finished the job stays in the hands of a worker whose entry nobody took out. */
  ghost predicate Safe(s: State, w: Generation, g: Generation) {
    && g in s.book
    && (s.book[g].fate.Finished? || (HasJob(s.workers, w, g) && !TakenOut(s.cancellers, w)))
  }

  lemma SafeIsNotInterrupted(s: State, w: Generation, g: Generation)
    requires Inv(s) && Safe(s, w, g)
    ensures g in s.book && !s.book[g].fate.Interrupted?
  {
    hide Wakes, RunningExact, SnapshotsTrue, LogTrue, FiredLogged, CancellersExact, EntriesOwned, PendingInMap,
        BookKept;
  }

  lemma JobIsInBook(s: State, w: Generation, g: Generation)
    requires Inv(s) && HasJob(s.workers, w, g)
    ensures g in s.book
  {
    hide Wakes, RunningExact, SnapshotsTrue, LogTrue, FiredLogged, CancellersExact, EntriesOwned, PendingInMap,
        BookKept;
  }

  lemma SafeNext(s: State, step: Step, w: Generation, g: Generation)
    requires Inv(s) && AbortExact(s, w) && Enabled(s, step) && Safe(s, w, g)
    ensures Safe(Next(s, step), w, g)
  {
    StepContinues(s, step);
    hide Inv, Next, Enabled, TakenOut, AbortSent;
    if !s.book[g].fate.Finished? {
      HandsNext(s, step, w, g);
      if s.workers[w].aborted {
        SentIsTaken(s.cancellers, w);
      }
    }
  }

  lemma {:induction false} SafeStays(trace: seq<State>, steps: seq<Step>, i: nat, j: nat, w: Generation, g: Generation)
    requires Run(trace, steps) && i <= j < |trace| && Safe(trace[i], w, g)
    ensures Safe(trace[j], w, g)
    decreases j
  {
    hide Inv, Next, Enabled, Safe, AbortExact, HasJob, TakenOut;
    if i < j {
      SafeStays(trace, steps, i, j - 1, w, g);
      InvAlways(trace, steps, j - 1);
      AbortedExactlyWhen(trace, steps, j - 1, w);
      SafeNext(trace[j - 1], steps[j - 1], w, g);
    }
  }

  // ----- the way to an interruption

  ghost predicate Extends(trace: seq<State>, steps: seq<Step>, trace': seq<State>, steps': seq<Step>) {
    Run(trace', steps') && |trace| <= |trace'| && trace'[..|trace|] == trace && |steps| <= |steps'|
        && steps'[..|steps|] == steps
  }

  lemma ExtendBy(trace: seq<State>, steps: seq<Step>, before: seq<State>, did: seq<Step>, step: Step)
    returns (trace': seq<State>, steps': seq<Step>)
    requires Run(trace, steps) && Extends(before, did, trace, steps) && Enabled(trace[|steps|], step)
    ensures Extends(before, did, trace', steps') && |steps'| == |steps| + 1
    ensures trace'[|steps'|] == Next(trace[|steps|], step)
  {
    hide Next, Enabled;
    steps' := steps + [step];
    trace' := trace + [Next(trace[|steps|], step)];
  }

  /** A job whose worker is marked aborted is one step away, or two if it has not been registered yet. */
  lemma AbortEnds(s: State, w: Generation, g: Generation)
    requires Inv(s) && HasJob(s.workers, w, g) && s.workers[w].aborted
    ensures s.workers[w].pc.Holding? ==>
              Enabled(s, Begin(w)) && var t := Next(s, Begin(w));
                  w in t.workers && t.workers[w].aborted && t.workers[w].pc == Pc.Running(g)
    ensures s.workers[w].pc.Running? ==>
              Enabled(s, Abort(w)) && var t := Next(s, Abort(w)); g in t.book && t.book[g].fate.Interrupted?
  {
    hide Wakes, RunningExact, SnapshotsTrue, LogTrue, FiredLogged, CancellersExact, EntriesOwned, PendingInMap,
        BookKept;
  }

  /** The cancel that took the entry out can always get to its abort. */
  lemma CancelGoesOn(s: State, c: nat, w: Generation)
    requires w in s.workers && c < |s.cancellers| && !s.cancellers[c].aborted && Owned(s.cancellers[c].removed, w)
    ensures Enabled(s, CancelAbort(c)) || Enabled(s, CancelCollect(c))
    ensures Enabled(s, CancelAbort(c)) ==>
              var t := Next(s, CancelAbort(c)); w in t.workers && t.workers[w] == s.workers[w].(aborted := true)
    ensures !Enabled(s, CancelAbort(c)) ==>
              var t := Next(s, CancelCollect(c));
              && t.workers == s.workers && |t.cancellers| == |s.cancellers|
              && t.cancellers[c].removed == s.cancellers[c].removed && Enabled(t, CancelAbort(c))
  {
  }

  /** From a job whose worker was taken out, at most four steps lead to its interruption. */
  lemma CanBeCutShort(trace: seq<State>, steps: seq<Step>, w: Generation, g: Generation)
    returns (trace': seq<State>, steps': seq<Step>)
    requires Run(trace, steps) && HasJob(trace[|steps|].workers, w, g) && TakenOut(trace[|steps|].cancellers, w)
    ensures Extends(trace, steps, trace', steps') && |steps'| <= |steps| + 4
    ensures g in trace'[|steps'|].book && trace'[|steps'|].book[g].fate.Interrupted?
  {
    trace', steps' := GetAborted(trace, steps, w, g);
    hide Inv, Next, Enabled, AbortSent, TakenOut, Owned, Run;
    if trace'[|steps'|].workers[w].pc.Holding? {
      InvAlways(trace', steps', |steps'|);
      AbortEnds(trace'[|steps'|], w, g);
      trace', steps' := ExtendBy(trace', steps', trace, steps, Begin(w));
    }
    InvAlways(trace', steps', |steps'|);
    AbortEnds(trace'[|steps'|], w, g);
    trace', steps' := ExtendBy(trace', steps', trace, steps, Abort(w));
  }

  lemma GetAborted(trace: seq<State>, steps: seq<Step>, w: Generation, g: Generation)
    returns (trace': seq<State>, steps': seq<Step>)
    requires Run(trace, steps) && HasJob(trace[|steps|].workers, w, g) && TakenOut(trace[|steps|].cancellers, w)
    ensures Extends(trace, steps, trace', steps') && |steps'| <= |steps| + 2 && |trace'| == |steps'| + 1
    ensures HasJob(trace'[|steps'|].workers, w, g) && trace'[|steps'|].workers[w].aborted
  {
    trace', steps' := trace, steps;
    var s := trace[|steps|];
    var c :| 0 <= c < |s.cancellers| && Owned(s.cancellers[c].removed, w);
    if s.cancellers[c].aborted {
      AbortedExactlyWhen(trace, steps, |steps|, w);
      assert AbortSent(s.cancellers, w);
    } else {
      hide Next, Enabled, AbortSent, TakenOut, Owned;
      CancelGoesOn(s, c, w);
      if !Enabled(s, CancelAbort(c)) {
        trace', steps' := ExtendBy(trace', steps', trace, steps, CancelCollect(c));
        CancelAbortNext(trace'[|steps'|], c, w);
      }
      trace', steps' := ExtendBy(trace', steps', trace, steps, CancelAbort(c));
    }
  }

  // ----- what it means

  ghost predicate LeadsToInterruption(trace: seq<State>, steps: seq<Step>, trace': seq<State>, steps': seq<Step>,
      g: Generation) {
    && Extends(trace, steps, trace', steps')
    && var s := trace'[|steps'|];
       g in s.book && s.book[g].fate.Interrupted?
  }

  /**
   A claimed job can still end interrupted if and only if a cancel took out the entry its worker had been spawned
   for.
   */
  lemma CutShortExactlyWhen(trace: seq<State>, steps: seq<Step>, w: Generation, g: Generation)
    requires Run(trace, steps) && HasJob(trace[|steps|].workers, w, g)
    ensures (exists trace', steps' :: LeadsToInterruption(trace, steps, trace', steps', g))
      <==> TakenOut(trace[|steps|].cancellers, w)
  {
    hide Inv, Next, Enabled, TakenOut;
    var s := trace[|steps|];
    if TakenOut(s.cancellers, w) {
      var trace', steps' := CanBeCutShort(trace, steps, w, g);
      assert LeadsToInterruption(trace, steps, trace', steps', g);
    } else {
      InvAlways(trace, steps, |steps|);
      JobIsInBook(s, w, g);
      forall trace', steps' | Extends(trace, steps, trace', steps')
        ensures !LeadsToInterruption(trace, steps, trace', steps', g)
      {
        assert trace'[|steps|] == trace'[..|trace|][|steps|] == s;
        SafeStays(trace', steps', |steps|, |steps'|, w, g);
        InvAlways(trace', steps', |steps'|);
        SafeIsNotInterrupted(trace'[|steps'|], w, g);
      }
    }
  }

  /** A job claimed by its entry's own worker is never cut short: it runs to its end. */
  lemma OwnJobRunsToItsEnd(trace: seq<State>, steps: seq<Step>, i: nat, j: nat, w: Generation)
    requires Run(trace, steps) && i < j < |trace| && steps[i] == Check(w)
    requires trace[i].workers[w].key in trace[i].jobs
    requires trace[i].jobs[trace[i].workers[w].key].generation == trace[i].workers[w].pc.generation
    requires trace[i].jobs[trace[i].workers[w].key].worker == w
    ensures var g := trace[i].workers[w].pc.generation;
      g in trace[j].book && !trace[j].book[g].fate.Interrupted?
  {
    var g := trace[i].workers[w].pc.generation;
    InvAlways(trace, steps, i);
    OwnClaimIsSafe(trace[i], w);
    InvAlways(trace, steps, j);
    hide Inv, Next, Enabled, Safe;
    SafeStays(trace, steps, i + 1, j, w, g);
    SafeIsNotInterrupted(trace[j], w, g);
  }

  lemma OwnClaimIsSafe(s: State, w: Generation)
    requires Inv(s) && Enabled(s, Check(w)) && s.workers[w].key in s.jobs
    requires s.jobs[s.workers[w].key].generation == s.workers[w].pc.generation && s.jobs[s.workers[w].key].worker == w
    ensures Safe(Next(s, Check(w)), w, s.workers[w].pc.generation)
  {
    OwnerIsNotTakenOut(s, w);
    hide Firings, Wakes, ClaimLocked, PendingInMap, BookKept, TakenOut;
  }

  lemma OwnerIsNotTakenOut(s: State, w: Generation)
    requires Inv(s) && w in s.workers && s.workers[w].key in s.jobs && s.jobs[s.workers[w].key].worker == w
    ensures !TakenOut(s.cancellers, w)
  {
    hide Firings, ClaimLocked, PendingInMap, BookKept, WakeStored, LimitKept;
    forall c | 0 <= c < |s.cancellers|
      ensures !Owned(s.cancellers[c].removed, w)
    {
      assert Disowned(s.cancellers[c].removed, s.jobs, s.workers);
    }
  }
}
