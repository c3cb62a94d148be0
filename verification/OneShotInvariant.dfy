/** What every reachable scheduler state satisfies; one preservation lemma per predicate. */
module OneShotInvariant {
  import opened Wrappers
  import opened OneShotMaps
  import opened OneShotMachine

  type Book = map<Generation, Record>
  type Workers = map<Generation, Worker>

  /** Generations are handed out once each, and only an installed one has a worker. */
  ghost predicate BookKept(next: Generation, book: Book, workers: Workers) {
    && next >= 1
    && (forall g :: g in book <==> 1 <= g < next)
    && (forall w :: w in workers ==> w in book && !book[w].fate.Drawn?)
  }

  predicate Attentive(pc: Pc) { pc.Reading? || pc.Waiting? || pc.Checking? }

  /** Each pending entry is the record of its key and has a live, bound, unaborted worker of its own. */
  ghost predicate EntriesOwned(jobs: OneShotMaps.Pending, book: Book, workers: Workers) {
    forall k :: k in jobs ==>
      && jobs[k].generation in book
      && book[jobs[k].generation] == Record(k, jobs[k].deadline, jobs[k].job, Fate.Pending)
      && jobs[k].worker in workers
      && workers[jobs[k].worker].key == k
      && !workers[jobs[k].worker].aborted
      && Attentive(workers[jobs[k].worker].pc)
  }

  ghost predicate PendingInMap(jobs: OneShotMaps.Pending, book: Book) {
    forall g :: g in book && book[g].fate.Pending? ==>
      book[g].key in jobs && jobs[book[g].key].generation == g
  }

  /** Between claim and registration the pending lock is held. */
  ghost predicate ClaimLocked(now: Time, lock: Option<Generation>, book: Book, workers: Workers) {
    && (lock.Some? ==> lock.value in workers && workers[lock.value].pc.Holding?)
    && (forall w :: w in workers && workers[w].pc.Holding? ==>
          && lock == Some(w)
          && var g := workers[w].pc.generation;
          && g in book && book[g].fate == Claimed(w) && book[g].key == workers[w].key
          && book[g].job == workers[w].pc.job && book[g].deadline <= now)
    && (forall g :: g in book && book[g].fate.Claimed? ==>
          && lock == Some(book[g].fate.worker)
          && book[g].fate.worker in workers
          && workers[book[g].fate.worker].pc.Holding?
          && workers[book[g].fate.worker].pc.generation == g)
  }

  ghost predicate ExecutingBound(book: Book, workers: Workers) {
    && (forall w :: w in workers && workers[w].pc.Running? ==>
          var g := workers[w].pc.generation;
          g in book && book[g].fate == Executing(w) && book[g].key == workers[w].key)
    && (forall g :: g in book && book[g].fate.Executing? ==>
          book[g].fate.worker in workers && workers[book[g].fate.worker].pc == Running(g))
  }

  /** The list kept under a key: not empty, each generation once, every one executing under that key. */
  ghost predicate ListExact(k: Key, entries: seq<RunningEntry>, book: Book) {
    && entries != []
    && DistinctGenerations(entries)
    && (forall e :: e in entries ==>
          && e.generation in book && book[e.generation].fate.Executing?
          && book[e.generation].key == k && e.token == book[e.generation].job.cancellable)
  }

  /** The running map lists exactly the executing generations, each once, and has no empty list. */
  ghost predicate RunningExact(running: OneShotMaps.Running, book: Book) {
    && (forall k :: k in running ==> ListExact(k, running[k], book))
    && (forall g :: g in book && book[g].fate.Executing? ==>
          && book[g].key in running
          && RunningEntry(g, book[g].job.cancellable) in running[book[g].key])
  }

  /** What a worker remembers of an entry is what was installed under its key. */
  ghost predicate SnapshotsTrue(now: Time, book: Book, workers: Workers) {
    forall w :: w in workers && (workers[w].pc.Waiting? || workers[w].pc.Checking?) ==>
      var g := workers[w].pc.generation;
      && g in book && book[g].key == workers[w].key
      && (workers[w].pc.Waiting? ==> book[g].deadline == workers[w].pc.deadline)
      && (workers[w].pc.Checking? ==> book[g].deadline <= now)
  }

  /** The log holds each fired generation once, on time, with its own job. */
  ghost predicate LogTrue(now: Time, log: seq<Firing>, book: Book) {
    && (forall f :: f in log ==>
          && f.generation in book && book[f.generation].Fired()
          && book[f.generation].deadline <= f.time <= now
          && f.key == book[f.generation].key && f.job == book[f.generation].job)
    && (forall i, j :: 0 <= i < j < |log| ==> log[i].generation != log[j].generation)
  }

  ghost predicate Logged(log: seq<Firing>, g: Generation) {
    exists f :: f in log && f.generation == g
  }

  ghost predicate FiredLogged(log: seq<Firing>, book: Book) {
    forall g :: g in book && book[g].Fired() ==> Logged(log, g)
  }

  /**
   An entry's own worker waiting on an outdated snapshot has a wake-up stored, if and only if nobody has stolen it.
   */
  ghost predicate WakeStored(jobs: OneShotMaps.Pending, workers: Workers, permits: set<Generation>,
      stolen: set<Generation>) {
    forall k :: k in jobs && jobs[k].worker in workers && workers[jobs[k].worker].pc.Waiting? ==>
      var w := jobs[k].worker;
      && workers[w].pc.notify == w
      && (w in stolen <==> workers[w].pc.generation != jobs[k].generation && w !in permits)
  }

  ghost predicate LimitKept(jobs: OneShotMaps.Pending) { |jobs| <= MAX_PENDING_ONE_SHOT_TASKS }

  /** A target is removed by its canceller, signalled or about to be, still to be collected, or over. */
  ghost predicate Handled(canceller: Canceller, c: nat, r: Record, g: Generation, signalled: set<Generation>) {
    && canceller.scope.Covers(r.key)
    && match r.fate {
         case Removed(taker) => taker == c
         case Executing(_) =>
           && r.job.cancellable
           && (canceller.tokens.Some? ==> g in canceller.tokens.value)
           && (canceller.signalled ==> g in signalled)
         case Finished => true
         case Interrupted => true
         case _ => false
       }
  }

  ghost predicate TargetsHandled(canceller: Canceller, c: nat, book: Book, signalled: set<Generation>) {
    forall g :: g in canceller.targets ==> g in book && Handled(canceller, c, book[g], g, signalled)
  }

  ghost predicate CancellersExact(cancellers: seq<Canceller>, book: Book, signalled: set<Generation>) {
    forall c :: 0 <= c < |cancellers| ==> TargetsHandled(cancellers[c], c, book, signalled)
  }

  /** The workers of entries that were taken out never own a live entry again. */
  ghost predicate Disowned(removed: OneShotMaps.Pending, jobs: OneShotMaps.Pending, workers: Workers) {
    forall k :: k in removed ==>
      && removed[k].worker in workers
      && workers[removed[k].worker].key == k
      && (k in jobs ==> jobs[k].worker != removed[k].worker)
  }

  ghost predicate RemovedDisowned(cancellers: seq<Canceller>, jobs: OneShotMaps.Pending, workers: Workers) {
    forall c :: 0 <= c < |cancellers| ==> Disowned(cancellers[c].removed, jobs, workers)
  }

  /** Who is pending, who waits for it, and who holds the lock. */
  ghost predicate Owners(s: State) {
    && BookKept(s.next, s.book, s.workers)
    && EntriesOwned(s.jobs, s.book, s.workers)
    && PendingInMap(s.jobs, s.book)
    && ClaimLocked(s.now, s.lock, s.book, s.workers)
  }

  /** What is executing, what has fired, and what cancellers did about it. */
  ghost predicate Firings(s: State) {
    && ExecutingBound(s.book, s.workers)
    && RunningExact(s.running, s.book)
    && SnapshotsTrue(s.now, s.book, s.workers)
    && LogTrue(s.now, s.log, s.book)
    && FiredLogged(s.log, s.book)
    && CancellersExact(s.cancellers, s.book, s.signalled)
  }

  ghost predicate Wakes(s: State) {
    && WakeStored(s.jobs, s.workers, s.permits, s.stolen)
    && LimitKept(s.jobs)
    && RemovedDisowned(s.cancellers, s.jobs, s.workers)
  }

  ghost predicate Inv(s: State) { Owners(s) && Firings(s) && Wakes(s) }

  // ----- a worker moves on without touching the maps

  lemma WorkerMoves(s: State, w: Generation, pc: Pc)
    requires Inv(s) && At(s, w) && Attentive(s.workers[w].pc)
    requires Attentive(pc) || (pc.Stopped? && forall k :: k in s.jobs ==> s.jobs[k].worker != w)
    ensures var workers := WithPc(s.workers, w, pc);
      && Owners(s.(workers := workers))
      && ExecutingBound(s.book, workers)
      && RemovedDisowned(s.cancellers, s.jobs, workers)
  {
    hide *;
    MoverOwns(s, w, pc);
    MoverRunsNothing(s, w, pc);
  }

  lemma MoverRunsNothing(s: State, w: Generation, pc: Pc)
    requires Inv(s) && At(s, w) && Attentive(s.workers[w].pc)
    requires Attentive(pc) || pc.Stopped?
    ensures var workers := WithPc(s.workers, w, pc);
      ExecutingBound(s.book, workers) && RemovedDisowned(s.cancellers, s.jobs, workers)
  {
    hide Owners, RunningExact, SnapshotsTrue, LogTrue, FiredLogged, CancellersExact, WakeStored, LimitKept;
  }

  lemma MoverOwns(s: State, w: Generation, pc: Pc)
    requires Inv(s) && At(s, w) && Attentive(s.workers[w].pc)
    requires Attentive(pc) || (pc.Stopped? && forall k :: k in s.jobs ==> s.jobs[k].worker != w)
    ensures Owners(s.(workers := WithPc(s.workers, w, pc)))
  {
    hide Wakes, ExecutingBound;
    hide RunningExact, SnapshotsTrue, LogTrue, FiredLogged, CancellersExact, WakeStored, LimitKept;
  }

  lemma ReadWakes(s: State, w: Generation)
    requires Inv(s)
    requires Enabled(s, Read(w))
    ensures var t := TakeRead(s, w);
      SnapshotsTrue(t.now, t.book, t.workers) && WakeStored(t.jobs, t.workers, t.permits, t.stolen)
  {
    hide BookKept, PendingInMap, ClaimLocked, ExecutingBound, RunningExact, LogTrue, FiredLogged, CancellersExact,
        LimitKept, RemovedDisowned;
  }

  lemma ReadKeeps(s: State, w: Generation)
    requires Inv(s)
    requires Enabled(s, Read(w))
    ensures Inv(TakeRead(s, w))
  {
    hide BookKept, PendingInMap, ClaimLocked;
    hide SnapshotsTrue, WakeStored, LimitKept, RemovedDisowned, ExecutingBound;
    hide RunningExact, LogTrue, FiredLogged, CancellersExact;
    WorkerMoves(s, w, TakeRead(s, w).workers[w].pc);
    ReadWakes(s, w);
  }

  lemma ElapseKeeps(s: State, w: Generation)
    requires Inv(s)
    requires Enabled(s, Elapse(w))
    ensures Inv(Next(s, Elapse(w)))
  {
    hide PendingInMap, RunningExact, LogTrue, FiredLogged, CancellersExact, LimitKept;
    WorkerMoves(s, w, Checking(s.workers[w].pc.generation));
  }

  lemma WakeKeeps(s: State, w: Generation)
    requires Inv(s)
    requires Enabled(s, Wake(w))
    ensures Inv(Next(s, Wake(w)))
  {
    hide PendingInMap, RunningExact, LogTrue, FiredLogged, CancellersExact, LimitKept;
    WorkerMoves(s, w, Reading);
  }

  lemma AbortIdleKeeps(s: State, w: Generation)
    requires Inv(s)
    requires Enabled(s, Abort(w)) && !s.workers[w].pc.Running?
    ensures Inv(Next(s, Abort(w)))
  {
    hide PendingInMap, RunningExact, LogTrue, FiredLogged, CancellersExact, LimitKept;
    WorkerMoves(s, w, Stopped);
  }

  lemma StaleCheckKeeps(s: State, w: Generation)
    requires Inv(s)
    requires Enabled(s, Check(w))
    requires s.workers[w].key in s.jobs ==> s.jobs[s.workers[w].key].generation != s.workers[w].pc.generation
    ensures Inv(TakeCheck(s, w))
  {
    hide PendingInMap, RunningExact, LogTrue, FiredLogged, CancellersExact, LimitKept;
    WorkerMoves(s, w, if s.workers[w].key in s.jobs then Reading else Stopped);
  }

  lemma TickKeeps(s: State, elapsed: Time)
    requires Inv(s)
    ensures Inv(Next(s, Tick(elapsed)))
  {
    hide EntriesOwned, PendingInMap, ExecutingBound, RunningExact, FiredLogged, CancellersExact, Wakes;
    SameWakes(s, Next(s, Tick(elapsed)));
  }

  // ----- drawing and scheduling

  predicate Calm(fate: Fate) { fate.Drawn? || fate.Rejected? || fate.Pending? || fate.Replaced? }

  /** What is executing, logged or targeted does not depend on records that are neither. */
  lemma QuietRecord(s: State, g: Generation, fate: Fate)
    requires Firings(s)
    requires g in s.book && Calm(s.book[g].fate) && !s.book[g].(fate := fate).Fired()
    ensures Firings(s.(book := WithFate(s.book, g, fate)))
  {
    QuietRecordLogs(s, g, fate);
    assert CancellersExact(s.cancellers, WithFate(s.book, g, fate), s.signalled) by {
      hide ExecutingBound, RunningExact, SnapshotsTrue, LogTrue, FiredLogged;
    }
    hide CancellersExact, LogTrue, FiredLogged;
  }

  lemma QuietRecordLogs(s: State, g: Generation, fate: Fate)
    requires Firings(s)
    requires g in s.book && Calm(s.book[g].fate) && !s.book[g].(fate := fate).Fired()
    ensures LogTrue(s.now, s.log, WithFate(s.book, g, fate)) && FiredLogged(s.log, WithFate(s.book, g, fate))
  {
    hide ExecutingBound, RunningExact, SnapshotsTrue, CancellersExact;
  }

  /** A worker that has not run yet, or holds the lock, is of no concern to the executing ones. */
  lemma QuietWorker(s: State, w: Generation, worker: Worker)
    requires Firings(s)
    requires w in s.workers ==> Attentive(s.workers[w].pc)
    requires worker.pc.Reading? || worker.pc.Holding?
    ensures Firings(s.(workers := s.workers[w := worker]))
  {
    hide RunningExact, LogTrue, FiredLogged, CancellersExact;
  }

  /** `Firings` looks at no other part of the state. */
  lemma SameFirings(s: State, t: State)
    requires Firings(s)
    requires t == s.(jobs := t.jobs, lock := t.lock, permits := t.permits, stolen := t.stolen, next := t.next)
    ensures Firings(t)
  {
    hide ExecutingBound, RunningExact, SnapshotsTrue, LogTrue, FiredLogged, CancellersExact;
  }

  lemma DrawOwners(s: State, key: Key, delay: Time, job: Job)
    requires Inv(s)
    requires delay > 0
    ensures Owners(Next(s, Draw(key, delay, job)))
  {
    hide Firings, Wakes;
  }

  lemma DrawFirings(s: State, key: Key, delay: Time, job: Job)
    requires Inv(s)
    requires delay > 0
    ensures Firings(Next(s, Draw(key, delay, job)))
  {
    hide EntriesOwned, PendingInMap, ClaimLocked, Wakes;
  }

  lemma RejectedOwners(s: State, g: Generation)
    requires Inv(s)
    requires Enabled(s, Schedule(g)) && InstallOutcome(s.jobs, s.book[g].key).Rejected?
    ensures Owners(TakeSchedule(s, g))
  {
    RejectedEntries(s, g);
    RejectedPending(s, g);
    hide TakeSchedule, BookKept, EntriesOwned, PendingInMap, ClaimLocked, Firings, Wakes;
  }

  lemma RejectedEntries(s: State, g: Generation)
    requires Inv(s)
    requires Enabled(s, Schedule(g)) && InstallOutcome(s.jobs, s.book[g].key).Rejected?
    ensures var t := TakeSchedule(s, g);
      BookKept(t.next, t.book, t.workers) && EntriesOwned(t.jobs, t.book, t.workers)
  {
    hide PendingInMap, ClaimLocked, Firings, Wakes;
  }

  lemma RejectedPending(s: State, g: Generation)
    requires Inv(s)
    requires Enabled(s, Schedule(g)) && InstallOutcome(s.jobs, s.book[g].key).Rejected?
    ensures var t := TakeSchedule(s, g);
      PendingInMap(t.jobs, t.book) && ClaimLocked(t.now, t.lock, t.book, t.workers)
  {
    hide BookKept, EntriesOwned, Firings, Wakes;
  }

  lemma InsertedEntries(s: State, g: Generation)
    requires Inv(s)
    requires Enabled(s, Schedule(g)) && InstallOutcome(s.jobs, s.book[g].key).Inserted?
    ensures var t := TakeSchedule(s, g);
      BookKept(t.next, t.book, t.workers) && EntriesOwned(t.jobs, t.book, t.workers)
  {
    InsertedBook(s, g);
    hide BookKept, PendingInMap, ClaimLocked, Firings, Wakes;
  }

  lemma InsertedBook(s: State, g: Generation)
    requires Inv(s)
    requires Enabled(s, Schedule(g)) && InstallOutcome(s.jobs, s.book[g].key).Inserted?
    ensures var t := TakeSchedule(s, g); BookKept(t.next, t.book, t.workers)
  {
    hide PendingInMap, ClaimLocked, Firings, Wakes;
  }

  lemma InsertedPending(s: State, g: Generation)
    requires Inv(s)
    requires Enabled(s, Schedule(g)) && InstallOutcome(s.jobs, s.book[g].key).Inserted?
    ensures var t := TakeSchedule(s, g);
      PendingInMap(t.jobs, t.book) && ClaimLocked(t.now, t.lock, t.book, t.workers)
  {
    hide Firings, Wakes;
  }

  lemma InsertedWakes(s: State, g: Generation)
    requires Inv(s)
    requires Enabled(s, Schedule(g)) && InstallOutcome(s.jobs, s.book[g].key).Inserted?
    ensures Wakes(TakeSchedule(s, g))
  {
    InsertedStored(s, g);
    InsertedDisowned(s, g);
    hide TakeSchedule, WakeStored, LimitKept, RemovedDisowned;
  }

  lemma InsertedStored(s: State, g: Generation)
    requires Inv(s)
    requires Enabled(s, Schedule(g)) && InstallOutcome(s.jobs, s.book[g].key).Inserted?
    ensures var t := TakeSchedule(s, g);
      WakeStored(t.jobs, t.workers, t.permits, t.stolen) && LimitKept(t.jobs)
  {
    hide PendingInMap, ClaimLocked, Firings, RemovedDisowned;
    InstallKeepsLimit(s.jobs, g, s.book[g].key, s.book[g].deadline, s.book[g].job);
  }

  lemma InsertedDisowned(s: State, g: Generation)
    requires Inv(s)
    requires Enabled(s, Schedule(g)) && InstallOutcome(s.jobs, s.book[g].key).Inserted?
    ensures var t := TakeSchedule(s, g); RemovedDisowned(t.cancellers, t.jobs, t.workers)
  {
    hide PendingInMap, ClaimLocked, Firings, WakeStored, LimitKept;
  }

  lemma UpdatedEntries(s: State, g: Generation)
    requires Inv(s)
    requires Enabled(s, Schedule(g)) && InstallOutcome(s.jobs, s.book[g].key).Updated?
    ensures var t := TakeSchedule(s, g);
      BookKept(t.next, t.book, t.workers) && EntriesOwned(t.jobs, t.book, t.workers)
  {
    UpdatedBook(s, g);
    hide BookKept, PendingInMap, ClaimLocked, Firings, Wakes;
  }

  lemma UpdatedBook(s: State, g: Generation)
    requires Inv(s)
    requires Enabled(s, Schedule(g)) && InstallOutcome(s.jobs, s.book[g].key).Updated?
    ensures var t := TakeSchedule(s, g); BookKept(t.next, t.book, t.workers)
  {
    hide PendingInMap, ClaimLocked, Firings, Wakes;
  }

  lemma UpdatedPending(s: State, g: Generation)
    requires Inv(s)
    requires Enabled(s, Schedule(g)) && InstallOutcome(s.jobs, s.book[g].key).Updated?
    ensures var t := TakeSchedule(s, g);
      PendingInMap(t.jobs, t.book) && ClaimLocked(t.now, t.lock, t.book, t.workers)
  {
    hide BookKept, Firings, Wakes;
  }

  lemma UpdatedWakes(s: State, g: Generation)
    requires Inv(s)
    requires Enabled(s, Schedule(g)) && InstallOutcome(s.jobs, s.book[g].key).Updated?
    ensures Wakes(TakeSchedule(s, g))
  {
    hide PendingInMap, ClaimLocked, Firings;
    InstallKeepsLimit(s.jobs, g, s.book[g].key, s.book[g].deadline, s.book[g].job);
  }

  lemma ScheduleFirings(s: State, g: Generation)
    requires Inv(s)
    requires Enabled(s, Schedule(g))
    ensures Firings(TakeSchedule(s, g))
  {
    hide PendingInMap, ClaimLocked, Firings, Wakes;
    var t := TakeSchedule(s, g);
    match InstallOutcome(s.jobs, s.book[g].key) {
      case Rejected =>
        QuietRecord(s, g, Fate.Rejected);
      case Inserted =>
        QuietRecord(s, g, Fate.Pending);
        var pending := s.(book := WithFate(s.book, g, Fate.Pending));
        QuietWorker(pending, g, Worker(s.book[g].key, Reading, false));
        SameFirings(pending.(workers := t.workers), t);
      case Updated =>
        QuietRecord(s, g, Fate.Pending);
        var pending := s.(book := WithFate(s.book, g, Fate.Pending));
        QuietRecord(pending, s.jobs[s.book[g].key].generation, Replaced);
        SameFirings(pending.(book := t.book), t);
    }
  }

  // ----- claiming, firing and finishing

  lemma ClaimOwners(s: State, w: Generation)
    requires Inv(s)
    requires Enabled(s, Check(w)) && s.workers[w].key in s.jobs
    requires s.jobs[s.workers[w].key].generation == s.workers[w].pc.generation
    ensures Owners(TakeCheck(s, w))
  {
    ClaimEntries(s, w);
    ClaimPending(s, w);
    hide BookKept, EntriesOwned, PendingInMap, ExecutingBound, RunningExact, LogTrue, FiredLogged, CancellersExact,
        Wakes;
  }

  lemma ClaimPending(s: State, w: Generation)
    requires Inv(s)
    requires Enabled(s, Check(w)) && s.workers[w].key in s.jobs
    requires s.jobs[s.workers[w].key].generation == s.workers[w].pc.generation
    ensures var t := TakeCheck(s, w); PendingInMap(t.jobs, t.book)
  {
    hide BookKept, ClaimLocked, ExecutingBound, RunningExact, LogTrue, FiredLogged, CancellersExact, Wakes;
  }

  lemma ClaimEntries(s: State, w: Generation)
    requires Inv(s)
    requires Enabled(s, Check(w)) && s.workers[w].key in s.jobs
    requires s.jobs[s.workers[w].key].generation == s.workers[w].pc.generation
    ensures var t := TakeCheck(s, w); BookKept(t.next, t.book, t.workers) && EntriesOwned(t.jobs, t.book, t.workers)
  {
    hide PendingInMap, ClaimLocked, ExecutingBound, RunningExact, LogTrue, FiredLogged, CancellersExact, Wakes;
  }

  lemma ClaimFirings(s: State, w: Generation)
    requires Inv(s)
    requires Enabled(s, Check(w)) && s.workers[w].key in s.jobs
    requires s.jobs[s.workers[w].key].generation == s.workers[w].pc.generation
    ensures Firings(TakeCheck(s, w))
  {
    hide BookKept, PendingInMap, ClaimLocked, Firings, Wakes;
    var t := TakeCheck(s, w);
    QuietRecord(s, s.workers[w].pc.generation, Claimed(w));
    QuietWorker(s.(book := t.book), w, t.workers[w]);
    SameFirings(s.(book := t.book, workers := t.workers), t);
  }

  lemma ClaimWakes(s: State, w: Generation)
    requires Inv(s)
    requires Enabled(s, Check(w)) && s.workers[w].key in s.jobs
    requires s.jobs[s.workers[w].key].generation == s.workers[w].pc.generation
    ensures Wakes(TakeCheck(s, w))
  {
    hide Owners, Firings;
    SubmapSize(TakeCheck(s, w).jobs, s.jobs);
  }

  lemma BeginOwners(s: State, w: Generation)
    requires Inv(s)
    requires Enabled(s, Begin(w))
    ensures Owners(TakeBegin(s, w))
  {
    hide Firings, Wakes;
  }

  lemma BeginExecuting(s: State, w: Generation)
    requires Inv(s)
    requires Enabled(s, Begin(w))
    ensures var t := TakeBegin(s, w); ExecutingBound(t.book, t.workers) && SnapshotsTrue(t.now, t.book, t.workers)
  {
    hide BookKept, EntriesOwned, PendingInMap, RunningExact, LogTrue, FiredLogged, CancellersExact, Wakes;
  }

  lemma BeginRunning(s: State, w: Generation)
    requires Inv(s)
    requires Enabled(s, Begin(w))
    ensures var t := TakeBegin(s, w); RunningExact(t.running, t.book)
  {
    hide BookKept, EntriesOwned, PendingInMap, ExecutingBound, SnapshotsTrue, LogTrue, FiredLogged, CancellersExact,
        Wakes;
  }

  lemma BeginLog(s: State, w: Generation)
    requires Inv(s)
    requires Enabled(s, Begin(w))
    ensures var t := TakeBegin(s, w); LogTrue(t.now, t.log, t.book) && FiredLogged(t.log, t.book)
  {
    hide BookKept, EntriesOwned, PendingInMap, ExecutingBound, RunningExact, SnapshotsTrue, CancellersExact, Wakes;
  }

  lemma BeginTargets(s: State, w: Generation)
    requires Inv(s)
    requires Enabled(s, Begin(w))
    ensures var t := TakeBegin(s, w); CancellersExact(t.cancellers, t.book, t.signalled)
  {
    hide BookKept, EntriesOwned, PendingInMap, ExecutingBound, RunningExact, SnapshotsTrue, LogTrue, FiredLogged, Wakes;
  }

  lemma BeginWakes(s: State, w: Generation)
    requires Inv(s)
    requires Enabled(s, Begin(w))
    ensures Wakes(TakeBegin(s, w))
  {
    hide BookKept, PendingInMap, ClaimLocked, Firings;
  }

  lemma EndOwners(s: State, w: Generation, fate: Fate)
    requires Inv(s)
    requires At(s, w) && s.workers[w].pc.Running? && (fate.Finished? || fate.Interrupted?)
    ensures Owners(TakeEnd(s, w, fate))
  {
    hide RunningExact, SnapshotsTrue, LogTrue, FiredLogged, CancellersExact, Wakes;
  }

  lemma EndExecuting(s: State, w: Generation, fate: Fate)
    requires Inv(s)
    requires At(s, w) && s.workers[w].pc.Running? && (fate.Finished? || fate.Interrupted?)
    ensures var t := TakeEnd(s, w, fate); ExecutingBound(t.book, t.workers) && SnapshotsTrue(t.now, t.book, t.workers)
  {
    hide Owners, RunningExact, LogTrue, FiredLogged, CancellersExact, Wakes;
  }

  lemma EndRunning(s: State, w: Generation, fate: Fate)
    requires Inv(s)
    requires At(s, w) && s.workers[w].pc.Running? && (fate.Finished? || fate.Interrupted?)
    ensures var t := TakeEnd(s, w, fate); RunningExact(t.running, t.book)
  {
    hide Owners, SnapshotsTrue, LogTrue, FiredLogged, CancellersExact, Wakes;
    RetainExactly(s.running[s.workers[w].key], s.workers[w].pc.generation);
  }

  lemma EndLog(s: State, w: Generation, fate: Fate)
    requires Inv(s)
    requires At(s, w) && s.workers[w].pc.Running? && (fate.Finished? || fate.Interrupted?)
    ensures var t := TakeEnd(s, w, fate);
      LogTrue(t.now, t.log, t.book) && FiredLogged(t.log, t.book) && CancellersExact(t.cancellers, t.book, t.signalled)
  {
    hide Owners, RunningExact, SnapshotsTrue, Wakes;
  }

  lemma EndWakes(s: State, w: Generation, fate: Fate)
    requires Inv(s)
    requires At(s, w) && s.workers[w].pc.Running? && (fate.Finished? || fate.Interrupted?)
    ensures Wakes(TakeEnd(s, w, fate))
  {
    hide BookKept, PendingInMap, ClaimLocked, Firings;
  }

  lemma EndKeeps(s: State, w: Generation, fate: Fate)
    requires Inv(s) && At(s, w) && s.workers[w].pc.Running? && (fate.Finished? || fate.Interrupted?)
    ensures Inv(TakeEnd(s, w, fate))
  {
    hide Owners, Wakes, ExecutingBound, RunningExact, SnapshotsTrue, LogTrue, FiredLogged, CancellersExact;
    EndOwners(s, w, fate);
    EndExecuting(s, w, fate);
    EndRunning(s, w, fate);
    EndLog(s, w, fate);
    EndWakes(s, w, fate);
  }

  // ----- cancelling

  lemma TakeOwners(s: State, scope: Scope)
    requires Inv(s)
    requires s.lock.None?
    ensures Owners(TakeCancel(s, scope))
  {
    TakeEntries(s, scope);
    TakePending(s, scope);
    TakeLocked(s, scope);
    hide Firings, Wakes, BookKept, EntriesOwned, PendingInMap, ClaimLocked, TakeCancel;
  }

  lemma TakePending(s: State, scope: Scope)
    requires Inv(s)
    requires s.lock.None?
    ensures var t := TakeCancel(s, scope); PendingInMap(t.jobs, t.book)
  {
    hide Firings, Wakes, BookKept, ClaimLocked;
  }

  lemma TakeLocked(s: State, scope: Scope)
    requires Inv(s)
    requires s.lock.None?
    ensures var t := TakeCancel(s, scope); ClaimLocked(t.now, t.lock, t.book, t.workers)
  {
    hide Firings, Wakes, BookKept, EntriesOwned, PendingInMap;
  }

  lemma TakeEntries(s: State, scope: Scope)
    requires Inv(s)
    requires s.lock.None?
    ensures var t := TakeCancel(s, scope);
      BookKept(t.next, t.book, t.workers) && EntriesOwned(t.jobs, t.book, t.workers)
  {
    hide Firings, Wakes, PendingInMap, ClaimLocked;
  }

  lemma TakeExecuting(s: State, scope: Scope)
    requires Inv(s)
    requires s.lock.None?
    ensures var t := TakeCancel(s, scope);
      && ExecutingBound(t.book, t.workers) && RunningExact(t.running, t.book) && SnapshotsTrue(t.now, t.book, t.workers)
  {
    hide Owners, CancellersExact, Wakes, LogTrue, FiredLogged;
  }

  lemma TakeLogs(s: State, scope: Scope)
    requires Inv(s)
    requires s.lock.None?
    ensures var t := TakeCancel(s, scope); LogTrue(t.now, t.log, t.book) && FiredLogged(t.log, t.book)
  {
    hide Owners, CancellersExact, Wakes, ExecutingBound, RunningExact, SnapshotsTrue;
  }

  lemma TakeTargets(s: State, scope: Scope)
    requires Inv(s)
    requires s.lock.None?
    ensures var t := TakeCancel(s, scope); CancellersExact(t.cancellers, t.book, t.signalled)
  {
    hide BookKept, EntriesOwned, PendingInMap, ExecutingBound, RunningExact, SnapshotsTrue, LogTrue, FiredLogged, Wakes;
  }

  lemma TakeWakes(s: State, scope: Scope)
    requires Inv(s)
    requires s.lock.None?
    ensures Wakes(TakeCancel(s, scope))
  {
    hide BookKept, PendingInMap, ClaimLocked, Firings;
    SubmapSize(TakeCancel(s, scope).jobs, s.jobs);
  }

  lemma AbortOwners(s: State, c: nat)
    requires Inv(s)
    requires Enabled(s, CancelAbort(c))
    ensures Owners(TakeAbort(s, c))
  {
    hide Firings, WakeStored, LimitKept;
  }

  lemma AbortFirings(s: State, c: nat)
    requires Inv(s)
    requires Enabled(s, CancelAbort(c))
    ensures Firings(TakeAbort(s, c))
  {
    hide Owners, RunningExact, LogTrue, FiredLogged, Wakes;
  }

  lemma AbortWakes(s: State, c: nat)
    requires Inv(s)
    requires Enabled(s, CancelAbort(c))
    ensures Wakes(TakeAbort(s, c))
  {
    AbortStored(s, c);
    hide Owners, Firings, WakeStored;
  }

  /** The permits go to workers that own no entry any more. */
  lemma AbortStored(s: State, c: nat)
    requires Inv(s)
    requires Enabled(s, CancelAbort(c))
    ensures var t := TakeAbort(s, c); WakeStored(t.jobs, t.workers, t.permits, t.stolen)
  {
    hide BookKept, PendingInMap, ClaimLocked, Firings, LimitKept;
    assert Disowned(s.cancellers[c].removed, s.jobs, s.workers);
  }

  lemma CollectKeeps(s: State, c: nat)
    requires Inv(s)
    requires Enabled(s, CancelCollect(c))
    ensures Inv(Next(s, CancelCollect(c)))
  {
    hide EntriesOwned, PendingInMap, ClaimLocked, ExecutingBound, SnapshotsTrue, LogTrue, FiredLogged, WakeStored,
        LimitKept;
  }

  lemma SignalKeeps(s: State, c: nat)
    requires Inv(s)
    requires Enabled(s, CancelSignal(c))
    ensures Inv(Next(s, CancelSignal(c)))
  {
    hide EntriesOwned, PendingInMap, ClaimLocked, ExecutingBound, RunningExact, SnapshotsTrue, LogTrue, FiredLogged,
        WakeStored, LimitKept;
  }

  /** Every step keeps every predicate. */
  lemma InvNext(s: State, step: Step)
    requires Inv(s) && Enabled(s, step)
    ensures Inv(Next(s, step))
  {
    hide Wakes, BookKept, EntriesOwned, PendingInMap, ClaimLocked;
    hide ExecutingBound, RunningExact, SnapshotsTrue, LogTrue, FiredLogged, CancellersExact;
    match step
    case Tick(elapsed) => TickKeeps(s, elapsed);
    case Draw(key, delay, job) =>
      DrawOwners(s, key, delay, job);
      DrawFirings(s, key, delay, job);
      SameWakes(s, Next(s, step));
    case Schedule(g) =>
      ScheduleFirings(s, g);
      match InstallOutcome(s.jobs, s.book[g].key) {
        case Updated => UpdatedEntries(s, g); UpdatedPending(s, g); UpdatedWakes(s, g);
        case Inserted => InsertedEntries(s, g); InsertedPending(s, g); InsertedWakes(s, g);
        case Rejected => RejectedOwners(s, g); SameWakes(s, Next(s, step));
      }
    case Read(w) => ReadKeeps(s, w);
    case Elapse(w) => ElapseKeeps(s, w);
    case Wake(w) => WakeKeeps(s, w);
    case Check(w) =>
      if s.workers[w].key in s.jobs && s.jobs[s.workers[w].key].generation == s.workers[w].pc.generation {
        ClaimOwners(s, w);
        ClaimFirings(s, w);
        ClaimWakes(s, w);
      } else {
        StaleCheckKeeps(s, w);
      }
    case Begin(w) =>
      BeginOwners(s, w);
      BeginExecuting(s, w);
      BeginRunning(s, w);
      BeginLog(s, w);
      BeginTargets(s, w);
      BeginWakes(s, w);
    case Finish(w) => EndKeeps(s, w, Finished);
    case Abort(w) =>
      if s.workers[w].pc.Running? {
        EndKeeps(s, w, Interrupted);
      } else {
        AbortIdleKeeps(s, w);
      }
    case CancelTake(scope) =>
      TakeOwners(s, scope);
      TakeExecuting(s, scope);
      TakeLogs(s, scope);
      TakeTargets(s, scope);
      TakeWakes(s, scope);
    case CancelAbort(c) =>
      AbortOwners(s, c);
      AbortFirings(s, c);
      AbortWakes(s, c);
    case CancelCollect(c) => CollectKeeps(s, c);
    case CancelSignal(c) => SignalKeeps(s, c);
  }

  lemma SameWakes(s: State, t: State)
    requires Wakes(s)
    requires t.jobs == s.jobs && t.workers == s.workers && t.permits == s.permits
    requires t.stolen == s.stolen && t.cancellers == s.cancellers
    ensures Wakes(t)
  {
    hide WakeStored, LimitKept, RemovedDisowned;
  }
}
