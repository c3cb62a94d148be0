/**
 Merging of show requests: a lock-free maximum of request ids, a try-lock, a swap, and a re-check after release.
 Requesters, the retry job that owns the guard, and finishers interleave at every atomic operation.
 */
module ShowMerge {
  import opened Wrappers

  datatype Pc =
    | Done
    | LoadPending(id: nat)                   // record_pending_show_request
    | Compare(id: nat, seen: nat)
    | TryLock(id: nat)
    | TakePending                            // guard held
    | ShowOnce(current: nat)                 // guard held
    | Retrying(current: nat)                 // guard held by the delayed retry job
    | ReRead(current: nat)                   // guard dropped by finish_show_flow

  /** `showing` also names the thread whose guard it is; the last three fields are history. */
  datatype State = State(
    requests: nat,                           // MAIN_WINDOW_SHOW_REQUEST_ID
    pending: nat,
    showing: Option<nat>,
    threads: seq<Pc>,
    recorded: set<nat>,
    shown: set<nat>,
    stranded: bool)                          // the guard was dropped without re-check while a larger id was pending

  /**
   `Request` draws an id, `FrontendReady` re-uses the latest one. `Abandon` is the end of a retry job that was
   rejected or cancelled: it drops the guard without looking at `pending` again.
   */
  datatype Step = Request | FrontendReady | Act(thread: nat) | Abandon(thread: nat)

  const INIT := State(0, 0, None, [], {}, {}, false)

  predicate HasGuard(pc: Pc) { pc.TakePending? || pc.ShowOnce? || pc.Retrying? }

  predicate Enabled(s: State, step: Step) {
    match step
    case Request => true
    case FrontendReady => true
    case Act(t) => t < |s.threads| && !s.threads[t].Done?
    case Abandon(t) => t < |s.threads| && s.threads[t].Retrying?
  }

  function Go(s: State, t: nat, pc: Pc): State
    requires t < |s.threads|
  {
    s.(threads := s.threads[t := pc])
  }

  /** The loop head of the recording loop, with the value last seen in `pending`. */
  function LoopHead(s: State, t: nat, id: nat, seen: nat): State
    requires t < |s.threads|
  {
    if id > seen then Go(s, t, Compare(id, seen)) else Go(s, t, TryLock(id)).(recorded := s.recorded + {id})
  }

  function Moved(s: State, t: nat): State
    requires t < |s.threads|
  {
    match s.threads[t]
    case Done => s
    case LoadPending(id) => LoopHead(s, t, id, s.pending)
    case Compare(id, seen) =>
      if s.pending == seen then Go(s, t, TryLock(id)).(pending := id, recorded := s.recorded + {id})
      else LoopHead(s, t, id, s.pending)
    case TryLock(_) => if s.showing.None? then Go(s, t, TakePending).(showing := Some(t)) else Go(s, t, Done)
    case TakePending => Go(s, t, ShowOnce(s.pending)).(pending := 0, stranded := false)
    case ShowOnce(current) => Go(s, t, Retrying(current)).(shown := s.shown + {current})
    case Retrying(current) => Go(s, t, ReRead(current)).(showing := None)
    case ReRead(current) => Go(s, t, if s.pending <= current then Done else LoadPending(s.pending))
  }

  function Next(s: State, step: Step): State
    requires Enabled(s, step)
  {
    match step
    case Request => s.(requests := s.requests + 1, threads := s.threads + [LoadPending(s.requests + 1)])
    case FrontendReady => s.(threads := s.threads + [LoadPending(s.requests)])
    case Act(t) => Moved(s, t)
    case Abandon(t) =>
      Go(s, t, Done).(showing := None, stranded := s.stranded || s.pending > s.threads[t].current)
  }

  ghost predicate Run(trace: seq<State>, steps: seq<Step>) {
    && |trace| == |steps| + 1
    && trace[0] == INIT
    && forall i :: 0 <= i < |steps| ==> Enabled(trace[i], steps[i]) && trace[i + 1] == Next(trace[i], steps[i])
  }

  // ----- the invariant

  ghost predicate GuardKept(showing: Option<nat>, threads: seq<Pc>) {
    && (showing.Some? ==> showing.value < |threads| && HasGuard(threads[showing.value]))
    && (forall t :: 0 <= t < |threads| && HasGuard(threads[t]) ==> showing == Some(t))
  }

  ghost predicate Covered(shown: set<nat>, id: nat) {
    exists c :: c in shown && c >= id
  }

  /** A thread took `id`, or a larger one, out of `pending` and is about to show it. */
  ghost predicate Carried(threads: seq<Pc>, id: nat) {
    exists t :: 0 <= t < |threads| && threads[t].ShowOnce? && threads[t].current >= id
  }

  /**
   The thread is bound to look at `pending` before it is done: it tries the guard, holds it, or re-reads. A thread
   that is still recording counts only for ids up to its own.
   */
  predicate BoundToLook(pc: Pc, id: nat) {
    || pc.TryLock? || HasGuard(pc) || pc.ReRead?
    || ((pc.LoadPending? || pc.Compare?) && pc.id >= id)
  }

  ghost predicate Watched(threads: seq<Pc>, id: nat) {
    exists t :: 0 <= t < |threads| && BoundToLook(threads[t], id)
  }

  /** Where a recorded id is: shown, being shown, or waiting in `pending` with somebody bound to look there again. */
  ghost predicate Handled(s: State, id: nat) {
    || Covered(s.shown, id)
    || Carried(s.threads, id)
    || (id <= s.pending && (Watched(s.threads, id) || s.stranded))
  }

  ghost predicate AfterShow(shown: set<nat>, threads: seq<Pc>) {
    forall t :: 0 <= t < |threads| && (threads[t].Retrying? || threads[t].ReRead?) ==> threads[t].current in shown
  }

  /** The recording loop only tries to raise `pending`. */
  ghost predicate Raising(threads: seq<Pc>) {
    forall t :: 0 <= t < |threads| && threads[t].Compare? ==> threads[t].id > threads[t].seen
  }

  ghost predicate Ids(s: State) {
    && s.pending <= s.requests
    && (forall id :: id in s.shown || id in s.recorded ==> id <= s.requests)
    && (forall t :: 0 <= t < |s.threads| ==>
          var pc := s.threads[t];
          && (pc.LoadPending? || pc.Compare? || pc.TryLock? ==> pc.id <= s.requests)
          && (pc.ShowOnce? || pc.Retrying? || pc.ReRead? ==> pc.current <= s.requests))
  }

  /** What waits in `pending` was recorded, and only something that waits can be stranded. */
  ghost predicate PendingRecorded(s: State) {
    && (s.pending > 0 ==> s.pending in s.recorded)
    && (s.stranded ==> s.pending > 0)
  }

  ghost predicate Inv(s: State) {
    && GuardKept(s.showing, s.threads)
    && PendingRecorded(s)
    && AfterShow(s.shown, s.threads)
    && Raising(s.threads)
    && Ids(s)
    && (forall id :: id in s.recorded ==> Handled(s, id))
  }

  lemma GuardNext(s: State, step: Step)
    requires Inv(s) && Enabled(s, step)
    ensures GuardKept(Next(s, step).showing, Next(s, step).threads)
  {
    hide Handled, Ids;
  }

  lemma ShownNext(s: State, step: Step)
    requires Inv(s) && Enabled(s, step)
    ensures AfterShow(Next(s, step).shown, Next(s, step).threads) && Raising(Next(s, step).threads)
  {
    hide Handled, GuardKept, Ids;
  }

  lemma IdsNext(s: State, step: Step)
    requires Inv(s) && Enabled(s, step)
    ensures Ids(Next(s, step))
  {
    hide Handled, GuardKept, Raising;
  }

  lemma PendingRecordedNext(s: State, step: Step)
    requires Inv(s) && Enabled(s, step)
    ensures PendingRecorded(Next(s, step))
  {
    hide Handled, GuardKept, Ids, AfterShow;
  }

  /** What a step does to one recorded id. */
  lemma HandledNext(s: State, step: Step, id: nat)
    requires Inv(s) && Enabled(s, step) && id in s.recorded
    ensures Handled(Next(s, step), id)
  {
    var s' := Next(s, step);
    hide Ids;
    if Covered(s.shown, id) {
      var c :| c in s.shown && c >= id;
      assert c in s'.shown;
    } else if Carried(s.threads, id) {
      var u :| 0 <= u < |s.threads| && s.threads[u].ShowOnce? && s.threads[u].current >= id;
      if step == Act(u) {
        assert s.threads[u].current in s'.shown;
      } else {
        assert s'.threads[u] == s.threads[u];
      }
    } else {
      PendingNext(s, step, id);
    }
  }

  lemma PendingNext(s: State, step: Step, id: nat)
    requires Inv(s) && Enabled(s, step) && id <= s.pending
    requires !Covered(s.shown, id) && !Carried(s.threads, id) && (Watched(s.threads, id) || s.stranded)
    ensures Handled(Next(s, step), id)
  {
    if step.Act? && s.threads[step.thread].TakePending? {
      assert Next(s, step).threads[step.thread] == ShowOnce(s.pending);
    } else if Watched(s.threads, id) {
      var u :| 0 <= u < |s.threads| && BoundToLook(s.threads[u], id);
      WatcherNext(s, step, id, u);
    }
  }

  /** A thread bound to look stays bound, hands its duty to the guard's holder, or has done it. */
  lemma WatcherNext(s: State, step: Step, id: nat, u: nat)
    requires Inv(s) && Enabled(s, step) && id <= s.pending && !Covered(s.shown, id)
    requires u < |s.threads| && BoundToLook(s.threads[u], id)
    requires step.Act? ==> !s.threads[step.thread].TakePending?
    ensures Handled(Next(s, step), id)
  {
    var s' := Next(s, step);
    assert id <= s'.pending;
    if step == Abandon(u) || (step == Act(u) && s.threads[u].ReRead?) {
      assert s.threads[u].current in s.shown;
      assert s.threads[u].current < s.pending;
    }
    if step == Act(u) && s.threads[u].TryLock? && s.showing.Some? {
      assert BoundToLook(s'.threads[s.showing.value], id);
    } else if step != Abandon(u) {
      assert BoundToLook(s'.threads[u], id);
    }
  }

  /** A thread that has just recorded its id stands at the try-lock with that id, or a larger one, pending. */
  lemma FreshlyRecorded(s: State, step: Step, id: nat)
    requires Inv(s) && Enabled(s, step) && id in Next(s, step).recorded && id !in s.recorded
    ensures Handled(Next(s, step), id)
  {
    var s' := Next(s, step);
    assert step.Act?;
    assert s'.threads[step.thread] == TryLock(id);
    assert id <= s'.pending;
  }

  lemma InvNext(s: State, step: Step)
    requires Inv(s) && Enabled(s, step)
    ensures Inv(Next(s, step))
  {
    GuardNext(s, step);
    ShownNext(s, step);
    IdsNext(s, step);
    PendingRecordedNext(s, step);
    forall id | id in Next(s, step).recorded
      ensures Handled(Next(s, step), id)
    {
      if id in s.recorded {
        HandledNext(s, step, id);
      } else {
        FreshlyRecorded(s, step, id);
      }
    }
    hide Next, Enabled, GuardKept, AfterShow, Raising, Ids, PendingRecorded, Handled;
  }

  lemma {:induction false} InvAlways(trace: seq<State>, steps: seq<Step>, i: nat)
    requires Run(trace, steps) && i < |trace|
    ensures Inv(trace[i])
  {
    if i > 0 {
      InvAlways(trace, steps, i - 1);
      hide Inv, Next, Enabled;
      InvNext(trace[i - 1], steps[i - 1]);
    }
  }

  // ----- what it means

  /**
   No show request is lost: a recorded id is covered by a performed show with an id at least as large; or a thread
   took it, or a larger one, and is about to show it; or it waits in `pending`, where a thread that tries the guard,
   holds it, re-reads, or records an id at least as large is bound to look, unless a retry job dropped the guard
   without re-check while a larger id was pending.
   */
  lemma NoShowIsLost(trace: seq<State>, steps: seq<Step>, i: nat, id: nat)
    requires Run(trace, steps) && i < |trace| && id in trace[i].recorded
    ensures var s := trace[i];
      || (exists c :: c in s.shown && c >= id)
      || (exists t :: 0 <= t < |s.threads| && s.threads[t].ShowOnce? && s.threads[t].current >= id)
      || (id <= s.pending && (s.stranded || exists t :: 0 <= t < |s.threads| && BoundToLook(s.threads[t], id)))
  {
    InvAlways(trace, steps, i);
    assert Handled(trace[i], id);
  }

  lemma OneGuardHolder(trace: seq<State>, steps: seq<Step>, i: nat, t: nat, u: nat)
    requires Run(trace, steps) && i < |trace| && t < |trace[i].threads| && u < |trace[i].threads|
    requires HasGuard(trace[i].threads[t]) && HasGuard(trace[i].threads[u])
    ensures t == u
  {
    InvAlways(trace, steps, i);
    hide Handled, Ids, AfterShow;
  }

  /** Without rejected or cancelled retry jobs nothing is ever stranded. */
  lemma {:induction false} OnlyAbandonedJobsStrand(trace: seq<State>, steps: seq<Step>, i: nat)
    requires Run(trace, steps) && i < |trace|
    requires forall k :: 0 <= k < i ==> !steps[k].Abandon?
    ensures !trace[i].stranded
  {
    if i > 0 {
      OnlyAbandonedJobsStrand(trace, steps, i - 1);
      assert !steps[i - 1].Abandon?;
    }
  }

  predicate AllDone(s: State) {
    forall t :: 0 <= t < |s.threads| ==> s.threads[t].Done?
  }

  ghost predicate AllCovered(s: State) {
    forall id :: id in s.recorded ==> Covered(s.shown, id)
  }

  /** Once every thread is done, all recorded ids are covered if and only if nothing uncovered waits in `pending`. */
  lemma QuietMeansCovered(trace: seq<State>, steps: seq<Step>, i: nat)
    requires Run(trace, steps) && i < |trace|
    ensures AllDone(trace[i]) ==>
              (AllCovered(trace[i]) <==> trace[i].pending == 0 || Covered(trace[i].shown, trace[i].pending))
  {
    InvAlways(trace, steps, i);
    var s := trace[i];
    if AllDone(s) && (s.pending == 0 || Covered(s.shown, s.pending)) {
      forall id | id in s.recorded
        ensures Covered(s.shown, id)
      {
        assert Handled(s, id);
      }
    }
  }

  lemma NewThreadIsNotDone(s: State, step: Step)
    requires step.Request? || step.FrontendReady?
    ensures !AllDone(Next(s, step))
  {
    assert Next(s, step).threads[|s.threads|].LoadPending?;
  }

  lemma LockedOutIsNotLast(s: State, t: nat)
    requires Inv(s) && Enabled(s, Act(t)) && s.threads[t].TryLock?
    ensures !AllDone(Next(s, Act(t)))
  {
    hide Handled, Ids, Raising, AfterShow, PendingRecorded;
    var u := if s.showing.Some? then s.showing.value else t;
    assert HasGuard(Next(s, Act(t)).threads[u]);
  }

  /** Only two moves can be the last one: giving up a retry job, and a re-read that finds nothing newer. */
  lemma LastMove(s: State, step: Step)
    requires Inv(s) && Enabled(s, step) && AllDone(Next(s, step)) && !step.Abandon?
    ensures step.Act? && s.threads[step.thread].ReRead? && s.pending <= s.threads[step.thread].current
  {
    hide Inv;
    if !step.Act? {
      NewThreadIsNotDone(s, step);
    } else if s.threads[step.thread].TryLock? {
      LockedOutIsNotLast(s, step.thread);
    } else {
      assert Next(s, step).threads[step.thread].Done?;
    }
  }

  /**
   The last thread loses a request if and only if it is a retry job rejected or cancelled while an uncovered id is
   pending. Every other way to come to an end leaves nothing uncovered.
   */
  lemma LossIsAbandonment(trace: seq<State>, steps: seq<Step>, i: nat)
    requires Run(trace, steps) && i < |steps|
    ensures AllDone(trace[i + 1]) ==>
              (!AllCovered(trace[i + 1]) <==>
                 steps[i].Abandon? && trace[i].pending > 0 && !Covered(trace[i].shown, trace[i].pending))
  {
    QuietMeansCovered(trace, steps, i + 1);
    InvAlways(trace, steps, i);
    hide Enabled, Handled, Ids, Raising;
    if AllDone(trace[i + 1]) && !steps[i].Abandon? {
      LastMove(trace[i], steps[i]);
      assert trace[i].threads[steps[i].thread].current in trace[i].shown;
    }
  }

  /**
   A stranded id is not gone: whoever takes `pending` next shows an id at least as large as every recorded one still
   uncovered.
   */
  lemma NextTakerRescues(trace: seq<State>, steps: seq<Step>, i: nat, t: nat, id: nat)
    requires Run(trace, steps) && i < |steps| && steps[i] == Act(t)
    requires t < |trace[i].threads| && trace[i].threads[t].TakePending?
    requires id in trace[i].recorded && !Covered(trace[i].shown, id)
    ensures !trace[i + 1].stranded
    ensures trace[i + 1].threads[t].ShowOnce? && trace[i + 1].threads[t].current >= id
  {
    InvAlways(trace, steps, i);
    var s := trace[i];
    assert Handled(s, id);
  }

  // ----- what is shown

  ghost predicate TakenRecorded(s: State) {
    && (forall t :: 0 <= t < |s.threads| && s.threads[t].ShowOnce? ==>
          s.threads[t].current == 0 || s.threads[t].current in s.recorded)
    && (forall c :: c in s.shown ==> c == 0 || c in s.recorded)
  }

  lemma TakenRecordedNext(s: State, step: Step)
    requires Inv(s) && Enabled(s, step) && TakenRecorded(s)
    ensures TakenRecorded(Next(s, step))
  {
    hide Handled, GuardKept, Ids, AfterShow, Raising;
  }

  lemma {:induction false} TakenAlwaysRecorded(trace: seq<State>, steps: seq<Step>, i: nat)
    requires Run(trace, steps) && i < |trace|
    ensures TakenRecorded(trace[i])
  {
    if i > 0 {
      hide Inv, Next, Enabled, TakenRecorded;
      TakenAlwaysRecorded(trace, steps, i - 1);
      InvAlways(trace, steps, i - 1);
      TakenRecordedNext(trace[i - 1], steps[i - 1]);
    }
  }

  /**
   A show is for a recorded id, or for none if another thread had taken the id before. It covers a recorded id that
   was not covered before if and only if its own id is one.
   */
  lemma ShowsAnswer(trace: seq<State>, steps: seq<Step>, i: nat, t: nat)
    requires Run(trace, steps) && i < |steps| && steps[i] == Act(t)
    requires t < |trace[i].threads| && trace[i].threads[t].ShowOnce?
    ensures var c := trace[i].threads[t].current; var shown := trace[i].shown;
      && trace[i + 1].shown == shown + {c}
      && (c == 0 || c in trace[i].recorded)
      && ((exists id :: id in trace[i].recorded && !Covered(shown, id) && Covered(trace[i + 1].shown, id)) <==>
            c in trace[i].recorded && !Covered(shown, c))
  {
    TakenAlwaysRecorded(trace, steps, i);
    var c := trace[i].threads[t].current;
    if c in trace[i].recorded && !Covered(trace[i].shown, c) {
      assert c in trace[i + 1].shown && Covered(trace[i + 1].shown, c);
    }
    if id :| id in trace[i].recorded && !Covered(trace[i].shown, id) && Covered(trace[i + 1].shown, id) {
      var d :| d in trace[i + 1].shown && d >= id;
      assert d == c;
    }
  }

  // ----- every thread can come to its end

  ghost predicate Extends(trace: seq<State>, steps: seq<Step>, trace': seq<State>, steps': seq<Step>) {
    && Run(trace', steps') && |trace| <= |trace'| && trace'[..|trace|] == trace
    && |steps| <= |steps'| && steps'[..|steps|] == steps
  }

  /** Steps of thread `t` alone until it is done, at most this many. */
  function Left(s: State, t: nat): nat
    requires t < |s.threads|
  {
    match s.threads[t]
    case Done => 0
    case ReRead(current) => if s.pending <= current then 1 else 7
    case Retrying(current) => if s.pending <= current then 2 else 8
    case ShowOnce(current) => if s.pending <= current then 3 else 9
    case TakePending => 4
    case TryLock(_) => 5
    case Compare(_, seen) => if s.pending == seen then 6 else 7
    case LoadPending(id) => if id > s.pending then 7 else 6
  }

  lemma MovesDown(s: State, t: nat)
    requires Inv(s) && t < |s.threads| && !s.threads[t].Done?
    ensures Enabled(s, Act(t)) && t < |Next(s, Act(t)).threads| && Left(Next(s, Act(t)), t) < Left(s, t)
  {
    hide Handled, GuardKept, Ids, AfterShow, PendingRecorded;
  }

  /** Left to itself, every thread comes to its end within nine steps: a show flow has no loop of its own. */
  lemma {:induction false} ThreadCanFinish(trace: seq<State>, steps: seq<Step>, t: nat)
    returns (trace': seq<State>, steps': seq<Step>)
    requires Run(trace, steps) && t < |trace[|steps|].threads|
    ensures Extends(trace, steps, trace', steps') && |steps'| <= |steps| + Left(trace[|steps|], t)
    ensures t < |trace'[|steps'|].threads| && trace'[|steps'|].threads[t].Done?
    ensures Left(trace[|steps|], t) <= 9
    decreases Left(trace[|steps|], t)
  {
    trace', steps' := trace, steps;
    var s := trace[|steps|];
    if !s.threads[t].Done? {
      InvAlways(trace, steps, |steps|);
      MovesDown(s, t);
      hide Inv, Next, Enabled;
      trace', steps' := Extend(trace, steps, Act(t));
      assert trace'[|steps'|] == Next(s, Act(t));
      assert trace'[..|trace|] == trace && steps'[..|steps|] == steps;
      var longer, more := ThreadCanFinish(trace', steps', t);
      Onward(trace, steps, trace', steps', longer, more);
      trace', steps' := longer, more;
    }
  }

  lemma Onward(a: seq<State>, x: seq<Step>, b: seq<State>, y: seq<Step>, c: seq<State>, z: seq<Step>)
    requires Extends(b, y, c, z) && |a| <= |b| && b[..|a|] == a && |x| <= |y| && y[..|x|] == x
    ensures Extends(a, x, c, z)
  {
    assert c[..|a|] == c[..|b|][..|a|];
    assert z[..|x|] == z[..|y|][..|x|];
  }

  // ----- a job that is rejected or cancelled does lose a request

  lemma Extend(trace: seq<State>, steps: seq<Step>, step: Step) returns (trace': seq<State>, steps': seq<Step>)
    requires Run(trace, steps) && Enabled(trace[|steps|], step)
    ensures Run(trace', steps') && steps' == steps + [step]
    ensures trace' == trace + [Next(trace[|steps|], step)]
  {
    hide Next, Enabled;
    steps' := steps + [step];
    trace' := trace + [Next(trace[|steps|], step)];
  }

  /**
   Request 2 merges into the show of request 1, whose retry job is then cancelled: everybody is done and 2 was never
   shown.
   */
  lemma CancelledRetryLosesARequest() returns (trace: seq<State>, steps: seq<Step>)
    ensures Run(trace, steps)
    ensures var s := trace[|steps|];
      && s.threads == [Done, Done] && s.showing.None?
      && 2 in s.recorded && !Covered(s.shown, 2) && s.stranded
  {
    trace, steps := [INIT], [];
    trace, steps := Extend(trace, steps, Request);
    trace, steps := Extend(trace, steps, Act(0));
    trace, steps := Extend(trace, steps, Act(0));
    trace, steps := Extend(trace, steps, Act(0));
    trace, steps := Extend(trace, steps, Act(0));
    trace, steps := Extend(trace, steps, Act(0));
    assert trace[6] == State(1, 0, Some(0), [Retrying(1)], {1}, {1}, false);
    trace, steps := Extend(trace, steps, Request);
    trace, steps := Extend(trace, steps, Act(1));
    trace, steps := Extend(trace, steps, Act(1));
    trace, steps := Extend(trace, steps, Act(1));
    trace, steps := Extend(trace, steps, Abandon(0));
  }
}
