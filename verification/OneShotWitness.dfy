/** Two reachable situations that bound what can be claimed about aborted workers. */
module OneShotWitness {
  import opened Wrappers
  import opened OneShotMaps
  import opened OneShotMachine

  lemma Extend(trace: seq<State>, steps: seq<Step>, step: Step) returns (trace': seq<State>, steps': seq<Step>)
    requires Run(trace, steps) && Enabled(trace[|steps|], step)
    ensures Run(trace', steps') && steps' == steps + [step]
    ensures trace' == trace + [Next(trace[|steps|], step)]
  {
    hide Next, Enabled;
    steps' := steps + [step];
    trace' := trace + [Next(trace[|steps|], step)];
  }

  const KEY: Key := "k"
  const JOB := Job(0, true)

  const OLD_ENTRY := Entry(1, 10, JOB, 1)
  const NEW_ENTRY := Entry(2, 20, JOB, 2)
  const OLD_RECORD := Record(KEY, 10, JOB, Removed(0))
  const NEW_RECORD := Record(KEY, 20, JOB, Fate.Pending)

  /** An entry whose worker is already asleep is taken out, but its worker is not aborted yet. */
  const TAKEN := State(0, 2, map[1 := OLD_RECORD], map[], None, map[],
                       map[1 := Worker(KEY, Waiting(1, 10, 1), false)], {}, {},
                       [Canceller(One(KEY), map[KEY := OLD_ENTRY], {1}, false, None, false)], {}, [])

  /** A new entry is installed and the old worker, aborted meanwhile, waits on the new notify object. */
  const REBOUND := State(0, 3, map[1 := OLD_RECORD, 2 := NEW_RECORD], map[KEY := NEW_ENTRY], None, map[],
                         map[1 := Worker(KEY, Waiting(2, 20, 2), true), 2 := Worker(KEY, Waiting(2, 20, 2), false)],
                         {}, {},
                         [Canceller(One(KEY), map[KEY := OLD_ENTRY], {1}, true, None, false)], {}, [])

  lemma TakenIsReachable() returns (trace: seq<State>, steps: seq<Step>)
    ensures Run(trace, steps) && trace[|steps|] == TAKEN
  {
    trace, steps := [INIT], [];
    trace, steps := Extend(trace, steps, Draw(KEY, 10, JOB));
    trace, steps := Extend(trace, steps, Schedule(1));
    trace, steps := Extend(trace, steps, Read(1));
    assert trace[3].jobs == map[KEY := OLD_ENTRY];
    trace, steps := Extend(trace, steps, CancelTake(One(KEY)));
    assert trace[4].book == TAKEN.book;
    assert trace[4].cancellers[0].removed == map[KEY := OLD_ENTRY];
    assert Targets(trace[3], One(KEY)) == {1};
    assert trace[4].jobs == map[];
  }

  const REPLACED := TAKEN.(next := 3, book := map[1 := OLD_RECORD, 2 := NEW_RECORD], jobs := map[KEY := NEW_ENTRY],
    workers := map[1 := Worker(KEY, Waiting(1, 10, 1), false), 2 := Worker(KEY, Waiting(2, 20, 2), false)])

  lemma ReplacedIsReachable() returns (trace: seq<State>, steps: seq<Step>)
    ensures Run(trace, steps) && trace[|steps|] == REPLACED
  {
    trace, steps := TakenIsReachable();
    var n := |steps|;
    trace, steps := Extend(trace, steps, Draw(KEY, 20, JOB));
    trace, steps := Extend(trace, steps, Schedule(2));
    trace, steps := Extend(trace, steps, Read(2));
    assert trace[n + 3].book == REPLACED.book;
    assert trace[n + 3].workers == REPLACED.workers;
  }

  /** Now the old worker is aborted and woken, but has not stopped yet. */
  const WOKEN := REPLACED.(permits := {}, cancellers := [REPLACED.cancellers[0].(aborted := true)],
    workers := map[1 := Worker(KEY, Reading, true), 2 := Worker(KEY, Waiting(2, 20, 2), false)])

  lemma WokenIsReachable() returns (trace: seq<State>, steps: seq<Step>)
    ensures Run(trace, steps) && trace[|steps|] == WOKEN
  {
    trace, steps := ReplacedIsReachable();
    var n := |steps|;
    var removed := REPLACED.cancellers[0].removed;
    assert (set k | k in removed :: removed[k].worker) == {1} by {
      assert KEY in removed;
    }
    trace, steps := Extend(trace, steps, CancelAbort(0));
    assert trace[n + 1].permits == {1};
    assert trace[n + 1].workers == REPLACED.workers[1 := Worker(KEY, Waiting(1, 10, 1), true)];
    trace, steps := Extend(trace, steps, Wake(1));
    assert trace[n + 2].workers == WOKEN.workers && trace[n + 2].permits == {};
  }

  lemma ReboundIsReachable() returns (trace: seq<State>, steps: seq<Step>)
    ensures Run(trace, steps) && trace[|steps|] == REBOUND
  {
    trace, steps := WokenIsReachable();
    var n := |steps|;
    trace, steps := Extend(trace, steps, Read(1));
    assert trace[n + 1].workers == REBOUND.workers;
  }

  /**
   With two waiters on one notify object the stored permit can go to the aborted one: the live worker
   then sleeps on towards a deadline that is no longer the entry's.
   */
  lemma WakeUpCanBeStolen() returns (trace: seq<State>, steps: seq<Step>)
    ensures Run(trace, steps)
    ensures var s := trace[|steps|];
      && KEY in s.jobs && s.jobs[KEY] == Entry(3, 5, JOB, 2)
      && 2 in s.workers && s.workers[2] == Worker(KEY, Waiting(2, 20, 2), false)
      && 2 !in s.permits && 2 in s.stolen
  {
    trace, steps := ReboundIsReachable();
    var n := |steps|;
    trace, steps := Extend(trace, steps, Draw(KEY, 5, JOB));
    trace, steps := Extend(trace, steps, Schedule(3));
    assert trace[n + 2].jobs == map[KEY := Entry(3, 5, JOB, 2)];
    trace, steps := Extend(trace, steps, Wake(1));
  }

  /** The old worker was late at the lock and reads the new entry when its deadline is over. */
  const LATE := WOKEN.(now := 20,
    workers := map[1 := Worker(KEY, Waiting(2, 20, 2), true), 2 := Worker(KEY, Waiting(2, 20, 2), false)])

  lemma LateIsReachable() returns (trace: seq<State>, steps: seq<Step>)
    ensures Run(trace, steps) && trace[|steps|] == LATE
  {
    trace, steps := WokenIsReachable();
    var n := |steps|;
    trace, steps := Extend(trace, steps, Tick(20));
    trace, steps := Extend(trace, steps, Read(1));
    assert trace[n + 2].workers == LATE.workers;
  }

  /**
   An aborted worker can also be the one that fires a later installation; the abort of the earlier one
   then ends the later job at its first await, although nobody cancelled it. The aborted worker is late at the lock,
   not at an await: once it has read, the new deadline is over and it goes on without yielding.
   */
  lemma FreshJobCanBeInterrupted() returns (trace: seq<State>, steps: seq<Step>)
    ensures Run(trace, steps)
    ensures var s := trace[|steps|];
      && 2 in s.book && s.book[2].fate == Interrupted && 2 !in s.signalled
      && forall c :: 0 <= c < |s.cancellers| ==> 2 !in s.cancellers[c].targets
  {
    trace, steps := LateIsReachable();
    trace, steps := Extend(trace, steps, Elapse(1));
    trace, steps := Extend(trace, steps, Check(1));
    trace, steps := Extend(trace, steps, Begin(1));
    trace, steps := Extend(trace, steps, Abort(1));
  }
}
