/** Whatever has happened before, a pending entry can still fire. */
module OneShotProgress {
  import opened Wrappers
  import opened OneShotMaps
  import opened OneShotMachine
  import opened OneShotInvariant
  import opened OneShotTheorems
  import opened OneShotInterruption

  /** The entry is pending, its own worker is on its way, and the lock is free. */
  predicate Underway(s: State, k: Key, e: Entry) {
    && s.lock.None? && k in s.jobs && s.jobs[k] == e
    && At(s, e.worker) && s.workers[e.worker].key == k && Attentive(s.workers[e.worker].pc)
  }

  lemma LockIsGivenBack(s: State, k: Key)
    requires Inv(s) && k in s.jobs && s.lock.Some?
    ensures Enabled(s, Begin(s.lock.value)) && Underway(Next(s, Begin(s.lock.value)), k, s.jobs[k])
  {
    hide Firings, Wakes, PendingInMap, BookKept;
  }

  lemma ReadLeads(s: State, k: Key, e: Entry)
    requires Underway(s, k, e) && s.workers[e.worker].pc.Reading?
    ensures Enabled(s, Read(e.worker))
    ensures var t := Next(s, Read(e.worker));
      Underway(t, k, e) && t.workers[e.worker].pc == Waiting(e.generation, e.deadline, e.worker)
  {
  }

  lemma TickLeads(s: State, k: Key, e: Entry, elapsed: Time)
    requires Underway(s, k, e)
    ensures var t := Next(s, Tick(elapsed)); Underway(t, k, e) && t.workers == s.workers && t.now == s.now + elapsed
  {
  }

  lemma ElapseLeads(s: State, k: Key, e: Entry)
    requires Underway(s, k, e) && s.workers[e.worker].pc.Waiting? && s.workers[e.worker].pc.deadline <= s.now
    ensures Enabled(s, Elapse(e.worker))
    ensures var t := Next(s, Elapse(e.worker));
      Underway(t, k, e) && t.workers[e.worker].pc == Checking(s.workers[e.worker].pc.generation)
  {
  }

  lemma StaleCheckLeads(s: State, k: Key, e: Entry)
    requires Underway(s, k, e) && s.workers[e.worker].pc.Checking?
    requires s.workers[e.worker].pc.generation != e.generation
    ensures Enabled(s, Check(e.worker))
    ensures var t := Next(s, Check(e.worker)); Underway(t, k, e) && t.workers[e.worker].pc == Reading
  {
  }

  lemma ClaimLeads(s: State, k: Key, e: Entry)
    requires Underway(s, k, e) && s.workers[e.worker].pc == Checking(e.generation)
    ensures Enabled(s, Check(e.worker))
    ensures var t := Next(s, Check(e.worker)); At(t, e.worker) && t.workers[e.worker].pc == Holding(e.generation, e.job)
  {
  }

  lemma BeginFires(s: State, w: Generation)
    requires At(s, w) && s.workers[w].pc.Holding?
    ensures Enabled(s, Begin(w)) && Logged(Next(s, Begin(w)).log, s.workers[w].pc.generation)
  {
    assert Next(s, Begin(w)).log[|s.log|] in Next(s, Begin(w)).log;
  }

  /** The worker has claimed: one more step fires. */
  lemma FireChecked(trace: seq<State>, steps: seq<Step>, before: seq<State>, did: seq<Step>, k: Key, e: Entry)
    returns (trace': seq<State>, steps': seq<Step>)
    requires Extends(before, did, trace, steps) && Underway(trace[|steps|], k, e)
    requires trace[|steps|].workers[e.worker].pc == Checking(e.generation)
    ensures Extends(before, did, trace', steps') && |steps'| == |steps| + 2
    ensures Logged(trace'[|steps'|].log, e.generation)
  {
    hide Next, Enabled, Logged, Underway;
    ClaimLeads(trace[|steps|], k, e);
    trace', steps' := ExtendBy(trace, steps, before, did, Check(e.worker));
    BeginFires(trace'[|steps'|], e.worker);
    trace', steps' := ExtendBy(trace', steps', before, did, Begin(e.worker));
  }

  /** The worker sleeps until its snapshot's deadline is over. */
  lemma SleepOn(trace: seq<State>, steps: seq<Step>, before: seq<State>, did: seq<Step>, k: Key, e: Entry)
    returns (trace': seq<State>, steps': seq<Step>)
    requires Extends(before, did, trace, steps) && Underway(trace[|steps|], k, e)
    requires trace[|steps|].workers[e.worker].pc.Waiting?
    ensures Extends(before, did, trace', steps') && |steps'| == |steps| + 2 && Underway(trace'[|steps'|], k, e)
    ensures trace'[|steps'|].workers[e.worker].pc == Checking(trace[|steps|].workers[e.worker].pc.generation)
  {
    var s := trace[|steps|];
    var elapsed := if s.workers[e.worker].pc.deadline <= s.now then 0 else s.workers[e.worker].pc.deadline - s.now;
    assert Enabled(s, Tick(elapsed));
    hide Next, Enabled;
    TickLeads(s, k, e, elapsed);
    trace', steps' := ExtendBy(trace, steps, before, did, Tick(elapsed));
    ElapseLeads(trace'[|steps'|], k, e);
    trace', steps' := ExtendBy(trace', steps', before, did, Elapse(e.worker));
  }

  lemma FireRead(trace: seq<State>, steps: seq<Step>, before: seq<State>, did: seq<Step>, k: Key, e: Entry)
    returns (trace': seq<State>, steps': seq<Step>)
    requires Extends(before, did, trace, steps) && Underway(trace[|steps|], k, e)
    requires trace[|steps|].workers[e.worker].pc.Reading?
    ensures Extends(before, did, trace', steps') && |steps'| == |steps| + 5
    ensures Logged(trace'[|steps'|].log, e.generation)
  {
    hide Next, Enabled, Logged, Underway;
    ReadLeads(trace[|steps|], k, e);
    trace', steps' := ExtendBy(trace, steps, before, did, Read(e.worker));
    trace', steps' := SleepOn(trace', steps', before, did, k, e);
    trace', steps' := FireChecked(trace', steps', before, did, k, e);
  }

  /**
   From every state of every run, at most nine steps lead any pending entry to its firing: its own worker gets there
   by reading, sleeping and checking alone, whatever it remembered before.
   */
  lemma PendingCanFire(trace: seq<State>, steps: seq<Step>, k: Key) returns (trace': seq<State>, steps': seq<Step>)
    requires Run(trace, steps) && k in trace[|steps|].jobs
    ensures Extends(trace, steps, trace', steps') && |steps'| <= |steps| + 9
    ensures Logged(trace'[|steps'|].log, trace[|steps|].jobs[k].generation)
  {
    var e := trace[|steps|].jobs[k];
    trace', steps' := GetUnderway(trace, steps, k);
    hide Next, Enabled, Logged, Inv;
    if trace'[|steps'|].workers[e.worker].pc.Waiting? {
      trace', steps' := SleepOn(trace', steps', trace, steps, k, e);
    }
    var pc := trace'[|steps'|].workers[e.worker].pc;
    if pc == Checking(e.generation) {
      trace', steps' := FireChecked(trace', steps', trace, steps, k, e);
    } else {
      if pc.Checking? {
        StaleCheckLeads(trace'[|steps'|], k, e);
        trace', steps' := ExtendBy(trace', steps', trace, steps, Check(e.worker));
      }
      trace', steps' := FireRead(trace', steps', trace, steps, k, e);
    }
  }

  lemma GetUnderway(trace: seq<State>, steps: seq<Step>, k: Key) returns (trace': seq<State>, steps': seq<Step>)
    requires Run(trace, steps) && k in trace[|steps|].jobs
    ensures Extends(trace, steps, trace', steps') && |steps'| <= |steps| + 1
    ensures Underway(trace'[|steps'|], k, trace[|steps|].jobs[k])
  {
    var s := trace[|steps|];
    trace', steps' := trace, steps;
    InvAlways(trace, steps, |steps|);
    if s.lock.Some? {
      LockIsGivenBack(s, k);
      hide Inv, Next, Enabled, Underway;
      trace', steps' := ExtendBy(trace, steps, trace, steps, Begin(s.lock.value));
    } else {
      hide Firings, Wakes, PendingInMap, BookKept, ClaimLocked;
    }
  }
}
