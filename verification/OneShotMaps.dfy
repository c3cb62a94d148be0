/** The two locked maps of the one-shot scheduler and what each critical section does to them. */
module OneShotMaps {

  type Key = string
  type Generation = nat
  type Time = nat

  /** Upper bound on pending entries; updates of an existing key are not bounded. */
  const MAX_PENDING_ONE_SHOT_TASKS: nat := 256

  /** `Plain` and `Cancellable` jobs, identified by the closure they carry. */
  datatype Job = Job(id: nat, cancellable: bool)

  /** A pending entry. `worker` names both the task spawned with the entry and its notify object. */
  datatype Entry = Entry(generation: Generation, deadline: Time, job: Job, worker: Generation)

  /** A running entry; the token of a cancellable job is named by the generation. */
  datatype RunningEntry = RunningEntry(generation: Generation, token: bool)

  type Pending = map<Key, Entry>
  type Running = map<Key, seq<RunningEntry>>

  datatype Outcome = Updated | Inserted | Rejected

  function InstallOutcome(jobs: Pending, key: Key): Outcome {
    if key in jobs then Updated
    else if |jobs| >= MAX_PENDING_ONE_SHOT_TASKS then Rejected
    else Inserted
  }

  /** An update keeps the worker and notify object of the entry it overwrites. */
  function Install(jobs: Pending, generation: Generation, key: Key, deadline: Time, job: Job): Pending {
    match InstallOutcome(jobs, key)
    case Updated => jobs[key := Entry(generation, deadline, job, jobs[key].worker)]
    case Inserted => jobs[key := Entry(generation, deadline, job, generation)]
    case Rejected => jobs
  }

  function Register(running: Running, key: Key, entry: RunningEntry): Running {
    running[key := (if key in running then running[key] else []) + [entry]]
  }

  function Retain(entries: seq<RunningEntry>, generation: Generation): seq<RunningEntry> {
    if entries == [] then []
    else
      var kept := Retain(entries[..|entries| - 1], generation);
      var last := entries[|entries| - 1];
      if last.generation != generation then kept + [last] else kept
  }

  function Unregister(running: Running, key: Key, generation: Generation): Running {
    if key !in running then running
    else
      var kept := Retain(running[key], generation);
      if kept == [] then running - {key} else running[key := kept]
  }

  /** Tokens of the cancellable entries in a list. */
  function TokensIn(entries: seq<RunningEntry>): set<Generation> {
    set i | 0 <= i < |entries| && entries[i].token :: entries[i].generation
  }

  /** Whom `cancel` (one key) or `cancel_all` (every key) addresses. */
  datatype Scope = One(key: Key) | All {
    predicate Covers(k: Key) { All? || key == k }
  }

  function Tokens(running: Running, scope: Scope): set<Generation> {
    set k, i | k in running && scope.Covers(k) && 0 <= i < |running[k]| && running[k][i].token
      :: running[k][i].generation
  }

  function Drained(jobs: Pending, scope: Scope): Pending {
    map k | k in jobs && scope.Covers(k) :: jobs[k]
  }

  function Undrained(jobs: Pending, scope: Scope): Pending {
    map k | k in jobs && !scope.Covers(k) :: jobs[k]
  }

  // ----- facts about the list kept per key

  predicate DistinctGenerations(entries: seq<RunningEntry>) {
    forall i, j :: 0 <= i < j < |entries| ==> entries[i].generation != entries[j].generation
  }

  predicate Listed(entries: seq<RunningEntry>, generation: Generation) {
    exists i :: 0 <= i < |entries| && entries[i].generation == generation
  }

  /** `retain` removes exactly the finished generation and keeps every other entry, with its token. */
  lemma {:induction false} RetainExactly(entries: seq<RunningEntry>, generation: Generation)
    ensures forall e :: e in Retain(entries, generation) <==> e in entries && e.generation != generation
    ensures DistinctGenerations(entries) ==> DistinctGenerations(Retain(entries, generation))
  {
    if entries != [] {
      var front := entries[..|entries| - 1];
      RetainExactly(front, generation);
      assert entries == front + [entries[|entries| - 1]];
      if DistinctGenerations(entries) {
        var kept := Retain(front, generation);
        forall i | 0 <= i < |kept|
          ensures kept[i].generation != entries[|entries| - 1].generation
        {
          assert kept[i] in front;
        }
      }
    }
  }

  lemma InstallKeepsLimit(jobs: Pending, generation: Generation, key: Key, deadline: Time, job: Job)
    ensures |jobs| <= MAX_PENDING_ONE_SHOT_TASKS ==>
              |Install(jobs, generation, key, deadline, job)| <= MAX_PENDING_ONE_SHOT_TASKS
    ensures key in jobs ==> InstallOutcome(jobs, key) == Updated
  {
    InsertedSize(jobs, key, Entry(generation, deadline, job, generation));
    if key in jobs {
      InsertedSize(jobs, key, Entry(generation, deadline, job, jobs[key].worker));
    }
  }

  /**
   An installation leaves every other key alone. A pending key keeps its worker and gets the rest anew; a new key gets
   its own worker below 256 entries, and nothing happens from there on.
   */
  lemma InstallExactly(jobs: Pending, generation: Generation, key: Key, deadline: Time, job: Job, k: Key)
    ensures var r := Install(jobs, generation, key, deadline, job);
      && (k != key ==> (k in r <==> k in jobs) && (k in jobs ==> r[k] == jobs[k]))
      && (key in jobs ==> key in r && r[key] == jobs[key].(generation := generation, deadline := deadline, job := job))
      && (key !in jobs && |jobs| < 256 ==> key in r && r[key] == Entry(generation, deadline, job, generation))
      && (key !in jobs && |jobs| >= 256 ==> r == jobs)
    ensures InstallOutcome(jobs, key) ==
              if key in jobs then Updated else if |jobs| < 256 then Inserted else Rejected
  {
  }

  lemma InsertedSize(jobs: Pending, key: Key, entry: Entry)
    ensures |jobs[key := entry]| == |jobs| + if key in jobs then 0 else 1
  {
    var next := jobs[key := entry];
    assert next.Keys == jobs.Keys + {key};
    assert |next.Keys| == |next| && |jobs.Keys| == |jobs|;
  }

  lemma SubmapSize(small: Pending, big: Pending)
    requires small.Keys <= big.Keys
    ensures |small| <= |big|
  {
    SubsetSize(small.Keys, big.Keys);
    assert |small.Keys| == |small| && |big.Keys| == |big|;
  }

  lemma {:induction false} SubsetSize(a: set<Key>, b: set<Key>)
    requires a <= b
    ensures |a| <= |b|
    decreases a
  {
    if a != {} {
      var x :| x in a;
      SubsetSize(a - {x}, b - {x});
    }
  }
}
