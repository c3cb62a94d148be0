/**
 The scheduler as a protocol: callers, workers and cancellers interleave at lock acquisitions and
 awaits. A worker is named by the generation whose installation spawned it.
 */
module OneShotMachine {
  import opened Wrappers
  import opened OneShotMaps

  /** What has become of a drawn generation. */
  datatype Fate =
    | Drawn                        // drawn, not yet under the pending lock
    | Rejected                     // pending limit reached
    | Pending
    | Replaced                     // overwritten while pending
    | Removed(canceller: nat)      // taken out while pending
    | Claimed(worker: Generation)  // taken by a worker that still holds the pending lock
    | Executing(worker: Generation)
    | Finished
    | Interrupted                  // its worker was aborted at an await inside the job

  datatype Record = Record(key: Key, deadline: Time, job: Job, fate: Fate) {
    predicate Cancellable() {
      fate.Pending? || (job.cancellable && (fate.Claimed? || fate.Executing?))
    }

    predicate Fired() { fate.Executing? || fate.Finished? || fate.Interrupted? }

    predicate Ended() { fate.Finished? || fate.Interrupted? }
  }

  datatype Pc =
    | Reading                                                            // about to lock and read
    | Waiting(generation: Generation, deadline: Time, notify: Generation) // inside select
    | Checking(generation: Generation)                                   // sleep elapsed, about to lock
    | Holding(generation: Generation, job: Job)                          // claimed, pending lock held
    | Running(generation: Generation)
    | Stopped

  datatype Worker = Worker(key: Key, pc: Pc, aborted: bool)

  /** A `cancel` or `cancel_all` call. `targets` is history: what it has to deal with. */
  datatype Canceller = Canceller(
    scope: Scope, removed: Pending, targets: set<Generation>,
    aborted: bool, tokens: Option<set<Generation>>, signalled: bool)

  datatype Firing = Firing(generation: Generation, time: Time, key: Key, job: Job)

  datatype State = State(
    now: Time,
    next: Generation,
    book: map<Generation, Record>,
    jobs: OneShotMaps.Pending,
    lock: Option<Generation>,      // worker holding the pending lock across two steps
    running: OneShotMaps.Running,
    workers: map<Generation, Worker>,
    permits: set<Generation>,      // notify objects with a stored permit
    stolen: set<Generation>,       // history: workers whose wake-up for an outdated snapshot another one consumed
    cancellers: seq<Canceller>,
    signalled: set<Generation>,    // cancelled tokens
    log: seq<Firing>)

  datatype Step =
    | Tick(elapsed: Time)
    | Draw(key: Key, delay: Time, job: Job)
    | Schedule(generation: Generation)
    | Read(worker: Generation)
    | Elapse(worker: Generation)
    | Wake(worker: Generation)
    | Check(worker: Generation)
    | Begin(worker: Generation)
    | Finish(worker: Generation)
    | Abort(worker: Generation)
    | CancelTake(scope: Scope)
    | CancelAbort(canceller: nat)
    | CancelCollect(canceller: nat)
    | CancelSignal(canceller: nat)

  const INIT := State(0, 1, map[], map[], None, map[], map[], {}, {}, [], {}, [])

  predicate At(s: State, w: Generation) { w in s.workers }

  /** When a step can be taken. A step that needs the pending lock waits until it is free. */
  predicate Enabled(s: State, step: Step) {
    match step
    case Tick(_) => true
    case Draw(_, delay, _) => delay > 0
    case Schedule(g) => g in s.book && s.book[g].fate.Drawn? && s.lock.None?
    case Read(w) => At(s, w) && s.workers[w].pc.Reading? && s.lock.None?
    case Elapse(w) => At(s, w) && s.workers[w].pc.Waiting? && s.workers[w].pc.deadline <= s.now
    case Wake(w) => At(s, w) && s.workers[w].pc.Waiting? && s.workers[w].pc.notify in s.permits
    case Check(w) => At(s, w) && s.workers[w].pc.Checking? && s.lock.None?
    case Begin(w) => At(s, w) && s.workers[w].pc.Holding?
    case Finish(w) => At(s, w) && s.workers[w].pc.Running?
    // an abort takes effect before the first poll or at an await
    case Abort(w) =>
      At(s, w) && s.workers[w].aborted &&
      (s.workers[w].pc.Reading? || s.workers[w].pc.Waiting? || s.workers[w].pc.Running?)
    case CancelTake(_) => s.lock.None?
    // `cancel` aborts before it collects tokens, `cancel_all` after
    case CancelAbort(c) =>
      c < |s.cancellers| && !s.cancellers[c].aborted &&
      (s.cancellers[c].scope.All? ==> s.cancellers[c].tokens.Some?)
    case CancelCollect(c) =>
      c < |s.cancellers| && s.cancellers[c].tokens.None? &&
      (s.cancellers[c].scope.One? ==> s.cancellers[c].aborted)
    case CancelSignal(c) =>
      c < |s.cancellers| && s.cancellers[c].aborted && s.cancellers[c].tokens.Some? &&
      !s.cancellers[c].signalled
  }

  function WithFate(book: map<Generation, Record>, g: Generation, fate: Fate): map<Generation, Record>
  {
    if g in book then book[g := book[g].(fate := fate)] else book
  }

  function WithPc(workers: map<Generation, Worker>, w: Generation, pc: Pc): map<Generation, Worker>
    requires w in workers
  {
    workers[w := workers[w].(pc := pc)]
  }

  function TakeSchedule(s: State, g: Generation): State
    requires g in s.book
  {
    var r := s.book[g];
    var jobs := Install(s.jobs, g, r.key, r.deadline, r.job);
    match InstallOutcome(s.jobs, r.key)
    case Updated =>
      var entry := s.jobs[r.key];
      var book := WithFate(s.book, g, Fate.Pending);
      s.(jobs := jobs,
         book := WithFate(book, entry.generation, Replaced),
         permits := s.permits + {entry.worker}, stolen := s.stolen - {entry.worker})
    case Rejected =>
      s.(jobs := jobs, book := WithFate(s.book, g, Fate.Rejected))
    case Inserted =>
      s.(jobs := jobs, book := WithFate(s.book, g, Fate.Pending),
         workers := s.workers[g := Worker(r.key, Reading, false)])
  }

  function TakeRead(s: State, w: Generation): State
    requires At(s, w)
  {
    var key := s.workers[w].key;
    if key !in s.jobs then s.(workers := WithPc(s.workers, w, Stopped), stolen := s.stolen - {w})
    else
      var e := s.jobs[key];
      s.(workers := WithPc(s.workers, w, Waiting(e.generation, e.deadline, e.worker)), stolen := s.stolen - {w})
  }

  /** The entry's own worker waits on a snapshot that an update has overtaken. */
  predicate Outdated(jobs: OneShotMaps.Pending, workers: map<Generation, Worker>, w: Generation) {
    && w in workers && workers[w].pc.Waiting?
    && workers[w].key in jobs && jobs[workers[w].key].worker == w
    && jobs[workers[w].key].generation != workers[w].pc.generation
  }

  function TakeWake(s: State, w: Generation): State
    requires At(s, w) && s.workers[w].pc.Waiting?
  {
    var owner := s.workers[w].pc.notify;
    s.(permits := s.permits - {owner}, workers := WithPc(s.workers, w, Reading),
       stolen := if owner != w && Outdated(s.jobs, s.workers, owner) then s.stolen + {owner} else s.stolen)
  }

  function TakeCheck(s: State, w: Generation): State
    requires At(s, w) && s.workers[w].pc.Checking?
  {
    var key := s.workers[w].key;
    var g := s.workers[w].pc.generation;
    if key !in s.jobs then s.(workers := WithPc(s.workers, w, Stopped))
    else if s.jobs[key].generation != g then s.(workers := WithPc(s.workers, w, Reading))
    else
      s.(jobs := s.jobs - {key}, lock := Some(w),
         book := WithFate(s.book, g, Claimed(w)),
         workers := WithPc(s.workers, w, Holding(g, s.jobs[key].job)))
  }

  /** Registers the running entry, lets go of the pending lock and enters the job. */
  function TakeBegin(s: State, w: Generation): State
    requires At(s, w) && s.workers[w].pc.Holding?
  {
    var key := s.workers[w].key;
    var g := s.workers[w].pc.generation;
    var job := s.workers[w].pc.job;
    s.(lock := None,
       running := Register(s.running, key, RunningEntry(g, job.cancellable)),
       book := WithFate(s.book, g, Executing(w)),
       workers := WithPc(s.workers, w, Running(g)),
       log := s.log + [Firing(g, s.now, key, job)])
  }

  /** The guard's drop, on return of the job or when the job future is dropped by an abort. */
  function TakeEnd(s: State, w: Generation, fate: Fate): State
    requires At(s, w) && s.workers[w].pc.Running?
  {
    var g := s.workers[w].pc.generation;
    s.(running := Unregister(s.running, s.workers[w].key, g),
       book := WithFate(s.book, g, fate),
       workers := WithPc(s.workers, w, Stopped))
  }

  function Targets(s: State, scope: Scope): set<Generation> {
    set g | g in s.book && scope.Covers(s.book[g].key) && s.book[g].Cancellable()
  }

  function TakeCancel(s: State, scope: Scope): State {
    var removed := Drained(s.jobs, scope);
    var c := |s.cancellers|;
    s.(jobs := Undrained(s.jobs, scope),
       book := map g | g in s.book ::
         if s.book[g].fate.Pending? && scope.Covers(s.book[g].key)
         then s.book[g].(fate := Removed(c)) else s.book[g],
       cancellers := s.cancellers + [Canceller(scope, removed, Targets(s, scope), false, None, false)])
  }

  /** `notify_one` and `abort` on every entry taken out. */
  function TakeAbort(s: State, c: nat): State
    requires c < |s.cancellers|
  {
    var removed := s.cancellers[c].removed;
    var owners := set k | k in removed :: removed[k].worker;
    s.(permits := s.permits + owners,
       workers := map w | w in s.workers ::
         if w in owners then s.workers[w].(aborted := true) else s.workers[w],
       cancellers := s.cancellers[c := s.cancellers[c].(aborted := true)])
  }

  function Next(s: State, step: Step): State
    requires Enabled(s, step)
  {
    match step
    case Tick(elapsed) => s.(now := s.now + elapsed)
    case Draw(key, delay, job) =>
      s.(next := s.next + 1, book := s.book[s.next := Record(key, s.now + delay, job, Drawn)])
    case Schedule(g) => TakeSchedule(s, g)
    case Read(w) => TakeRead(s, w)
    case Elapse(w) => s.(workers := WithPc(s.workers, w, Checking(s.workers[w].pc.generation)))
    case Wake(w) => TakeWake(s, w)
    case Check(w) => TakeCheck(s, w)
    case Begin(w) => TakeBegin(s, w)
    case Finish(w) => TakeEnd(s, w, Finished)
    case Abort(w) =>
      if s.workers[w].pc.Running? then TakeEnd(s, w, Interrupted)
      else s.(workers := WithPc(s.workers, w, Stopped))
    case CancelTake(scope) => TakeCancel(s, scope)
    case CancelAbort(c) => TakeAbort(s, c)
    case CancelCollect(c) =>
      s.(cancellers := s.cancellers[c :=
        s.cancellers[c].(tokens := Some(Tokens(s.running, s.cancellers[c].scope)))])
    case CancelSignal(c) =>
      s.(signalled := s.signalled + s.cancellers[c].tokens.value,
         cancellers := s.cancellers[c := s.cancellers[c].(signalled := true)])
  }

  /** A run from the empty scheduler: the states visited by a sequence of enabled steps. */
  ghost predicate Run(trace: seq<State>, steps: seq<Step>) {
    && |trace| == |steps| + 1
    && trace[0] == INIT
    && forall i :: 0 <= i < |steps| ==> Enabled(trace[i], steps[i]) && trace[i + 1] == Next(trace[i], steps[i])
  }
}
