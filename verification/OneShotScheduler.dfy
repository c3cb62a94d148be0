/** The scheduler object. Each method is one critical section, proved against `OneShotMaps`. */
module OneShotScheduler {
  import opened Wrappers
  import opened OneShotMaps

  class OneShotScheduler {
    var jobs: Pending
    var running: Running
    var nextGeneration: Generation

    constructor ()
      ensures jobs == map[] && running == map[] && nextGeneration == 1
    {
      jobs := map[];
      running := map[];
      nextGeneration := 1;
    }

    /** `fetch_add` before the pending lock is taken; a zero delay is refused before the draw. */
    method Draw(delay: Time) returns (generation: Option<Generation>)
      modifies this`nextGeneration
      ensures delay == 0 ==> generation == None && nextGeneration == old(nextGeneration)
      ensures delay > 0 ==> generation == Some(old(nextGeneration)) && nextGeneration == old(nextGeneration) + 1
    {
      if delay == 0 {
        return None;
      }
      generation := Some(nextGeneration);
      nextGeneration := nextGeneration + 1;
    }

    method ScheduleLocked(generation: Generation, key: Key, deadline: Time, job: Job) returns (outcome: Outcome)
      modifies this`jobs
      ensures outcome == InstallOutcome(old(jobs), key)
      ensures jobs == Install(old(jobs), generation, key, deadline, job)
      ensures old(|jobs|) <= MAX_PENDING_ONE_SHOT_TASKS ==> |jobs| <= MAX_PENDING_ONE_SHOT_TASKS
    {
      InstallKeepsLimit(jobs, generation, key, deadline, job);
      if key in jobs {
        var entry := jobs[key];
        entry := entry.(generation := generation);
        entry := entry.(deadline := deadline);
        entry := entry.(job := job);
        jobs := jobs[key := entry];
        return Updated;
      }
      if |jobs| >= MAX_PENDING_ONE_SHOT_TASKS {
        return Rejected;
      }
      jobs := jobs[key := Entry(generation, deadline, job, generation)];
      return Inserted;
    }

    /** First critical section of `cancel`. */
    method RemovePending(key: Key) returns (entry: Option<Entry>)
      modifies this`jobs
      ensures jobs == Undrained(old(jobs), One(key))
      ensures entry == if key in old(jobs) then Some(old(jobs)[key]) else None
      ensures Drained(old(jobs), One(key)) == if entry.Some? then map[key := entry.value] else map[]
    {
      entry := if key in jobs then Some(jobs[key]) else None;
      jobs := jobs - {key};
    }

    /** The locked re-check of a worker whose deadline passed. */
    method Claim(key: Key, generation: Generation) returns (entry: Option<Entry>, retry: bool)
      modifies this`jobs
      ensures key !in old(jobs) ==> entry == None && !retry && jobs == old(jobs)
      ensures key in old(jobs) && old(jobs)[key].generation != generation ==>
                entry == None && retry && jobs == old(jobs)
      ensures key in old(jobs) && old(jobs)[key].generation == generation ==>
                entry == Some(old(jobs)[key]) && !retry && jobs == old(jobs) - {key}
    {
      if key !in jobs {
        return None, false;
      }
      if jobs[key].generation != generation {
        return None, true;
      }
      entry, retry := Some(jobs[key]), false;
      jobs := jobs - {key};
    }

    /** `RunningTaskGuard::new`. */
    method BeginRunning(key: Key, generation: Generation, token: bool)
      modifies this`running
      ensures running == Register(old(running), key, RunningEntry(generation, token))
    {
      if key !in running {
        running := running[key := []];
      }
      running := running[key := running[key] + [RunningEntry(generation, token)]];
    }

    /** Drop of the running guard: `retain` in a loop, then removal of an empty list. */
    method EndRunning(key: Key, generation: Generation)
      modifies this`running
      ensures running == Unregister(old(running), key, generation)
    {
      if key in running {
        var entries := running[key];
        var kept: seq<RunningEntry> := [];
        for i := 0 to |entries|
          invariant kept == Retain(entries[..i], generation)
        {
          assert entries[..i + 1][..i] == entries[..i];
          if entries[i].generation != generation {
            kept := kept + [entries[i]];
          }
        }
        assert entries[..|entries|] == entries;
        running := running[key := kept];
        if kept == [] {
          running := running - {key};
        }
      }
    }

    /** Second critical section of `cancel`: clone the tokens of the running entries under the key. */
    method CollectTokens(key: Key) returns (tokens: seq<Generation>)
      ensures (set t | t in tokens) == Tokens(running, One(key))
      ensures |tokens| > 0 <==> Tokens(running, One(key)) != {}
    {
      tokens := [];
      if key in running {
        var entries := running[key];
        for i := 0 to |entries|
          invariant forall t :: t in tokens <==> t in TokensIn(entries[..i])
        {
          assert forall j :: 0 <= j < i ==> entries[..i][j] == entries[..i + 1][j];
          assert TokensIn(entries[..i + 1]) ==
                 TokensIn(entries[..i]) + if entries[i].token then {entries[i].generation} else {};
          if entries[i].token {
            tokens := tokens + [entries[i].generation];
          }
        }
        assert entries[..|entries|] == entries;
        assert Tokens(running, One(key)) == TokensIn(entries);
      } else {
        assert Tokens(running, One(key)) == {};
      }
      assert (set t | t in tokens) == Tokens(running, One(key));
      assert |tokens| > 0 ==> tokens[0] in Tokens(running, One(key));
    }
  }
}
