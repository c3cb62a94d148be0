/** What holds over every run of group delay checks. */
module DelayTheorems {
  import opened Wrappers
  import opened DelayCheck

  ghost predicate Written(log: seq<Write>, c: nat, i: nat) {
    exists k :: 0 <= k < |log| && log[k].check == c && log[k].index == i
  }

  ghost predicate Requested(workers: seq<Worker>, i: nat) {
    exists w :: 0 <= w < |workers| && workers[w] == Requesting(i)
  }

  /** Positions are handed out once each, in order. */
  ghost predicate Claims(c: nat, names: seq<string>, next: nat, workers: seq<Worker>, log: seq<Write>) {
    && (forall w :: 0 <= w < |workers| && workers[w].Requesting? ==>
          workers[w].index < next && workers[w].index < |names| && !Written(log, c, workers[w].index))
    && (forall v, w :: 0 <= v < w < |workers| && workers[v].Requesting? && workers[w].Requesting? ==>
          workers[v].index != workers[w].index)
  }

  /** A position ends at most one worker. */
  ghost predicate Throws(c: nat, names: seq<string>, workers: seq<Worker>, log: seq<Write>) {
    && (forall w :: 0 <= w < |workers| && workers[w].Thrown? ==>
        workers[w].at < |names| && Written(log, c, workers[w].at))
    && (forall v, w :: 0 <= v < w < |workers| && workers[v].Thrown? && workers[w].Thrown? ==>
          workers[v].at != workers[w].at)
  }

  /** The worker is past every position but the last, or about to find that there is none. */
  predicate PastAllButLast(worker: Worker, names: seq<string>) {
    match worker
    case AtHead => true
    case Gone => true
    case Requesting(index) => index + 1 >= |names|
    case Thrown(at) => at + 1 >= |names|
  }

  ghost predicate SomeonePast(workers: seq<Worker>, names: seq<string>) {
    exists w :: 0 <= w < |workers| && PastAllButLast(workers[w], names)
  }

  ghost predicate LogKept(checks: seq<Check>, log: seq<Write>) {
    && (forall k :: 0 <= k < |log| ==>
          && log[k].check < |checks| && log[k].index < |checks[log[k].check].names|
          && log[k].index < checks[log[k].check].next && HasDelayResult(log[k].delay))
    && (forall j, k :: 0 <= j < k < |log| && log[j].check == log[k].check ==> log[j].index != log[k].index)
  }

  /**
   While the task is current, every position handed out is written or being requested, and a worker only leaves at
   the end.
   */
  ghost predicate Covered(c: nat, names: seq<string>, next: nat, workers: seq<Worker>, log: seq<Write>) {
    && (forall i :: 0 <= i < |names| && i < next ==> Written(log, c, i) || Requested(workers, i))
    && (forall w :: 0 <= w < |workers| && workers[w].Gone? ==> next > |names|)
    && (next >= |names| > 0 ==> SomeonePast(workers, names))
  }

  ghost predicate CheckKept(tasks: Tasks, c: nat, check: Check, log: seq<Write>) {
    && 1 <= check.task <= tasks.last
    && (check.phase.Marking? ==> check.workers == [] && check.next == 0)
    && (check.phase.Working? ==> |check.workers| == WorkerCount(check.concurrency, check.names))
    && (check.phase == Returned(true) ==>
          && |check.workers| == WorkerCount(check.concurrency, check.names)
          && (forall w :: 0 <= w < |check.workers| ==> check.workers[w].Over())
          && Covered(c, check.names, check.next, check.workers, log))
    && Claims(c, check.names, check.next, check.workers, log)
    && Throws(c, check.names, check.workers, log)
    && (check.phase.Working? && tasks.IsCurrent(check.group, check.task) ==>
          Covered(c, check.names, check.next, check.workers, log))
    && (|check.workers| == 0 ==> check.next == 0)
  }

  ghost predicate Inv(s: State) {
    && s.tasks.Valid()
    && LogKept(s.checks, s.log)
    && forall c :: 0 <= c < |s.checks| ==> CheckKept(s.tasks, c, s.checks[c], s.log)
  }

  /** A task that is not current never becomes current again. */
  lemma TasksAge(tasks: Tasks, tasks': Tasks, group: string)
    requires tasks.Valid() && (tasks' == tasks.Started(group) || tasks' == tasks.Cancelled(group))
    ensures tasks'.Valid() && tasks.last <= tasks'.last
    ensures forall g, id: nat :: id <= tasks.last && tasks'.IsCurrent(g, id) ==> tasks.IsCurrent(g, id)
  {
  }

  lemma WrittenStays(log: seq<Write>, write: Write, c: nat, i: nat)
    ensures Written(log + [write], c, i) <==> Written(log, c, i) || (write.check == c && write.index == i)
  {
    var log' := log + [write];
    assert log'[|log|] == write;
    if k :| 0 <= k < |log| && log[k].check == c && log[k].index == i {
      assert log'[k] == log[k];
    }
  }

  // ----- one check at a time

  /** A check nobody touches stays as it is when tasks age and other checks write. */
  lemma UntouchedKept(tasks: Tasks, tasks': Tasks, c: nat, check: Check, log: seq<Write>, log': seq<Write>)
    requires CheckKept(tasks, c, check, log) && tasks.last <= tasks'.last
    requires tasks'.IsCurrent(check.group, check.task) ==> tasks.IsCurrent(check.group, check.task)
    requires forall i: nat :: Written(log', c, i) <==> Written(log, c, i)
    ensures CheckKept(tasks', c, check, log')
  {
    hide Written, Requested, WorkerCount, HasDelayResult;
  }

  /** A worker leaves because the task is no longer current. */
  lemma LeaverKept(tasks: Tasks, c: nat, check: Check, log: seq<Write>, w: nat)
    requires CheckKept(tasks, c, check, log) && check.phase.Working? && w < |check.workers|
    requires !tasks.IsCurrent(check.group, check.task)
    ensures CheckKept(tasks, c, check.(workers := check.workers[w := Gone]), log)
  {
    hide Written, WorkerCount;
  }

  /** A worker takes the next position, or finds there is none. */
  lemma TakerKept(tasks: Tasks, c: nat, check: Check, log: seq<Write>, w: nat)
    requires CheckKept(tasks, c, check, log) && check.phase.Working? && w < |check.workers| && check.workers[w].AtHead?
    requires tasks.IsCurrent(check.group, check.task)
    requires !Written(log, c, check.next)
    ensures var worker := if check.next < |check.names| then Requesting(check.next) else Gone;
      CheckKept(tasks, c, check.(next := check.next + 1, workers := check.workers[w := worker]), log)
  {
    hide Written, WorkerCount;
    var worker := if check.next < |check.names| then Requesting(check.next) else Gone;
    var workers' := check.workers[w := worker];
    forall i: nat | i < |check.names| && i < check.next + 1
      ensures Written(log, c, i) || Requested(workers', i)
    {
      if i == check.next {
        assert workers'[w] == Requesting(i);
      } else if Requested(check.workers, i) {
        var v :| 0 <= v < |check.workers| && check.workers[v] == Requesting(i);
        assert workers'[v] == Requesting(i);
      }
    }
    if check.next + 1 >= |check.names| {
      assert PastAllButLast(workers'[w], check.names);
    }
  }

  lemma WriterCovers(c: nat, names: seq<string>, next: nat, workers: seq<Worker>, log: seq<Write>, w: nat, delay: int,
      after: Worker)
    requires Covered(c, names, next, workers, log) && w < |workers| && workers[w].Requesting?
    requires after == AtHead || after == Thrown(workers[w].index)
    ensures Covered(c, names, next, workers[w := after], log + [Write(c, workers[w].index, delay)])
  {
    var index, workers' := workers[w].index, workers[w := after];
    var log' := log + [Write(c, index, delay)];
    forall i: nat | i < |names| && i < next
      ensures Written(log', c, i) || Requested(workers', i)
    {
      WrittenStays(log, Write(c, index, delay), c, i);
      if !Written(log, c, i) && i != index {
        var v :| 0 <= v < |workers| && workers[v] == Requesting(i);
        assert workers'[v] == Requesting(i);
      }
    }
    hide Written, Requested;
    if SomeonePast(workers, names) {
      var v :| 0 <= v < |workers| && PastAllButLast(workers[v], names);
      assert PastAllButLast(workers'[v], names);
    }
  }

  /** A worker stores its result. */
  lemma WriterKept(tasks: Tasks, c: nat, check: Check, log: seq<Write>, w: nat, delay: int, after: Worker)
    requires CheckKept(tasks, c, check, log) && check.phase.Working? && w < |check.workers|
        && check.workers[w].Requesting?
    requires tasks.IsCurrent(check.group, check.task) && (after == AtHead || after == Thrown(check.workers[w].index))
    ensures CheckKept(tasks, c, check.(workers := check.workers[w := after]),
        log + [Write(c, check.workers[w].index, delay)])
  {
    hide WorkerCount;
    var index, log' := check.workers[w].index, log + [Write(c, check.workers[w].index, delay)];
    forall i: nat
      ensures Written(log', c, i) <==> Written(log, c, i) || i == index
    {
      WrittenStays(log, Write(c, index, delay), c, i);
    }
    WriterCovers(c, check.names, check.next, check.workers, log, w, delay, after);
    hide Written, Covered;
  }

  /** All workers are over: if the task is still current, every position handed out was written. */
  lemma SettledKept(tasks: Tasks, c: nat, check: Check, log: seq<Write>)
    requires CheckKept(tasks, c, check, log) && check.phase.Working?
    requires forall w :: 0 <= w < |check.workers| ==> check.workers[w].Over()
    ensures CheckKept(tasks, c, check.(phase := Returned(tasks.IsCurrent(check.group, check.task))), log)
  {
    hide Written, Requested, WorkerCount;
  }

  lemma MarkedKept(tasks: Tasks, c: nat, check: Check, log: seq<Write>)
    requires CheckKept(tasks, c, check, log) && check.phase.Marking?
    ensures CheckKept(tasks, c, check.(phase := Returned(false)), log)
    ensures CheckKept(tasks, c, check.(phase := Rejected), log)
    ensures CheckKept(tasks, c, check.(marked := check.marked + 1), log)
    ensures var workers := seq(WorkerCount(check.concurrency, check.names), _ => AtHead);
      CheckKept(tasks, c, check.(workers := workers, phase := Working), log)
  {
    hide Written, WorkerCount;
  }

  // ----- every step

  lemma LogNext(s: State, step: Step)
    requires Inv(s) && Enabled(s, step)
    ensures LogKept(Next(s, step).checks, Next(s, step).log)
  {
    if step.Answer? && Live(s, s.checks[step.check]) {
      AnswerLogged(s, step.check, step.worker, step.first, step.second, step.throws);
    } else {
      hide CheckKept, HasDelayResult;
    }
  }

  lemma AnswerLogged(s: State, c: nat, w: nat, first: Option<nat>, second: Option<nat>, throws: bool)
    requires Inv(s) && Enabled(s, Answer(c, w, first, second, throws)) && Live(s, s.checks[c])
    ensures var s' := Next(s, Answer(c, w, first, second, throws)); LogKept(s'.checks, s'.log)
  {
    hide Covered, WorkerCount;
    assert CheckKept(s.tasks, c, s.checks[c], s.log);
    assert forall k :: 0 <= k < |s.log| && s.log[k].check == c ==> Written(s.log, c, s.log[k].index);
  }

  lemma NotYetWritten(s: State, c: nat)
    requires LogKept(s.checks, s.log) && c < |s.checks|
    ensures !Written(s.log, c, s.checks[c].next)
  {
  }

  /** Steps that only change the tasks. */
  lemma AgedKept(s: State, step: Step, group: string)
    requires Inv(s) && (step == Restart(group) || step == Cancel(group))
    ensures Inv(Next(s, step))
  {
    var s' := Next(s, step);
    TasksAge(s.tasks, s'.tasks, group);
    hide CheckKept, LogKept;
    forall c | 0 <= c < |s.checks|
      ensures CheckKept(s'.tasks, c, s.checks[c], s.log)
    {
      CheckTask(s.tasks, c, s.checks[c], s.log);
      UntouchedKept(s.tasks, s'.tasks, c, s.checks[c], s.log, s.log);
    }
  }

  lemma CheckTask(tasks: Tasks, c: nat, check: Check, log: seq<Write>)
    requires CheckKept(tasks, c, check, log)
    ensures 1 <= check.task <= tasks.last
  {
  }

  /** Steps that only change one check. */
  lemma OneCheckKept(s: State, step: Step, c: nat)
    requires Inv(s) && Enabled(s, step)
    requires (step.Mark? && step.check == c) || step == Settle(c) || (step.Take? && step.check == c)
             || (step.Answer? && step.check == c && !Live(s, s.checks[c]))
    ensures Inv(Next(s, step))
  {
    var s' := Next(s, step);
    var check := s.checks[c];
    LogNext(s, step);
    assert CheckKept(s.tasks, c, check, s.log);
    assert CheckKept(s.tasks, c, s'.checks[c], s.log) by {
      hide CheckKept, LogKept;
      match step
      case Mark(_, _) => MarkedKept(s.tasks, c, check, s.log);
      case Settle(_) => SettledKept(s.tasks, c, check, s.log);
      case Take(_, w) =>
        if Live(s, check) {
          NotYetWritten(s, c);
          TakerKept(s.tasks, c, check, s.log, w);
        } else {
          LeaverKept(s.tasks, c, check, s.log, w);
        }
      case Answer(_, w, _, _, _) => LeaverKept(s.tasks, c, check, s.log, w);
    }
    assert s'.checks == s.checks[c := s'.checks[c]] && s'.tasks == s.tasks && s'.log == s.log;
    hide CheckKept, LogKept, Next;
  }

  lemma AnswerKept(s: State, c: nat, w: nat, first: Option<nat>, second: Option<nat>, throws: bool)
    requires Inv(s) && Enabled(s, Answer(c, w, first, second, throws)) && Live(s, s.checks[c])
    ensures Inv(Next(s, Answer(c, w, first, second, throws)))
  {
    var s' := Next(s, Answer(c, w, first, second, throws));
    var check := s.checks[c];
    LogNext(s, Answer(c, w, first, second, throws));
    var write := s'.log[|s.log|];
    assert s'.log == s.log + [write] && write.check == c;
    assert CheckKept(s.tasks, c, check, s.log);
    var after := if throws then Thrown(check.workers[w].index) else AtHead;
    WriterKept(s.tasks, c, check, s.log, w, write.delay, after);
    hide CheckKept, LogKept;
    forall d | 0 <= d < |s.checks| && d != c
      ensures CheckKept(s.tasks, d, s.checks[d], s'.log)
    {
      forall i: nat
        ensures Written(s'.log, d, i) <==> Written(s.log, d, i)
      {
        WrittenStays(s.log, write, d, i);
      }
      UntouchedKept(s.tasks, s.tasks, d, s.checks[d], s.log, s'.log);
    }
    assert s'.checks[c] == check.(workers := check.workers[w := after]);
  }

  lemma InvNext(s: State, step: Step)
    requires Inv(s) && Enabled(s, step)
    ensures Inv(Next(s, step))
  {
    hide Inv, LogKept, CheckKept;
    match step
    case Restart(group) => AgedKept(s, step, group);
    case Cancel(group) => AgedKept(s, step, group);
    case Begin(_, _, _, _) => BegunKept(s, step);
    case Mark(c, _) => OneCheckKept(s, step, c);
    case Settle(c) => OneCheckKept(s, step, c);
    case Take(c, _) => OneCheckKept(s, step, c);
    case Answer(c, w, first, second, throws) =>
      if Live(s, s.checks[c]) {
        AnswerKept(s, c, w, first, second, throws);
      } else {
        OneCheckKept(s, step, c);
      }
  }

  lemma BegunKept(s: State, step: Step)
    requires Inv(s) && Enabled(s, step) && step.Begin?
    ensures Inv(Next(s, step))
  {
    LogNext(s, step);
    assert forall c :: 0 <= c < |s.checks| ==> CheckKept(s.tasks, c, s.checks[c], s.log);
    hide LogKept, Written;
    assert CheckKept(s.tasks, |s.checks|, Next(s, step).checks[|s.checks|], s.log);
  }

  lemma InvInit()
    ensures Inv(INIT)
  {
  }

  lemma {:induction false} InvAlways(trace: seq<State>, steps: seq<Step>, i: nat)
    requires Run(trace, steps) && i < |trace|
    ensures Inv(trace[i])
  {
    hide Inv, Next, Enabled;
    if i == 0 {
      InvInit();
    } else {
      InvAlways(trace, steps, i - 1);
      InvNext(trace[i - 1], steps[i - 1]);
    }
  }

  // ----- what it means

  /** A worker only ever stores a delay while its task is the group's latest and not aborted. */
  lemma OnlyCurrentTasksWrite(trace: seq<State>, steps: seq<Step>, i: nat)
    requires Run(trace, steps) && i < |steps| && trace[i + 1].log != trace[i].log
    ensures |trace[i + 1].log| == |trace[i].log| + 1
    ensures var c := trace[i + 1].log[|trace[i].log|].check;
      c < |trace[i].checks| && Live(trace[i], trace[i].checks[c])
  {
  }

  /** What is stored for a position is what the requests for the name at that position answered. */
  ghost predicate Measures(check: Check, write: Write, first: Option<nat>, second: Option<nat>) {
    && write.index < |check.names|
    && write.delay == Measured(check.names[write.index], first, second)
  }

  /**
   A delay enters the log exactly when a worker of a current task gets its answers: it is stored for the position the
   worker asked for, and is the measurement of the name at that position.
   */
  lemma WritesItsOwnName(trace: seq<State>, steps: seq<Step>, i: nat)
    requires Run(trace, steps) && i < |steps|
    ensures var s := trace[i]; var s' := trace[i + 1];
      (s'.log != s.log <==> steps[i].Answer? && Live(s, s.checks[steps[i].check]))
      && (steps[i].Answer? && Live(s, s.checks[steps[i].check]) ==>
            && |s'.log| == |s.log| + 1 && s'.log[..|s.log|] == s.log
            && s'.log[|s.log|].check == steps[i].check
            && s.checks[steps[i].check].workers[steps[i].worker] == Requesting(s'.log[|s.log|].index)
            && Measures(s.checks[steps[i].check], s'.log[|s.log|], steps[i].first, steps[i].second))
  {
    InvAlways(trace, steps, i);
    if steps[i].Answer? {
      assert CheckKept(trace[i].tasks, steps[i].check, trace[i].checks[steps[i].check], trace[i].log);
    }
    hide Inv, LogKept, Covered, Throws, Measured, Written;
  }

  lemma TasksNext(s: State, step: Step, group: string, task: nat)
    requires s.tasks.Valid() && Enabled(s, step) && task <= s.tasks.last && !s.tasks.IsCurrent(group, task)
    ensures task <= Next(s, step).tasks.last && !Next(s, step).tasks.IsCurrent(group, task)
  {
  }

  /** Once superseded or cancelled a task never counts as current again. */
  lemma {:induction false} SupersededForGood(trace: seq<State>, steps: seq<Step>, i: nat, j: nat, group: string,
      task: nat)
    requires Run(trace, steps) && i <= j < |trace|
    requires task <= trace[i].tasks.last && !trace[i].tasks.IsCurrent(group, task)
    ensures task <= trace[j].tasks.last && !trace[j].tasks.IsCurrent(group, task)
  {
    hide Enabled, Next;
    if i < j {
      SupersededForGood(trace, steps, i, j - 1, group, task);
      InvAlways(trace, steps, j - 1);
      hide LogKept, CheckKept;
      TasksNext(trace[j - 1], steps[j - 1], group, task);
    }
  }

  /** The number of writes of a check. */
  function WritesOf(log: seq<Write>, c: nat): nat {
    if log == [] then 0 else WritesOf(log[..|log| - 1], c) + (if log[|log| - 1].check == c then 1 else 0)
  }

  lemma CheckNext(s: State, step: Step, c: nat)
    requires Enabled(s, step) && c < |s.checks|
    ensures var s' := Next(s, step);
      && c < |s'.checks| && s'.checks[c].group == s.checks[c].group && s'.checks[c].task == s.checks[c].task
      && s'.checks[c].names == s.checks[c].names && s'.checks[c].concurrency == s.checks[c].concurrency
      && (!Live(s, s.checks[c]) ==> WritesOf(s'.log, c) == WritesOf(s.log, c))
  {
    var s' := Next(s, step);
    assert s'.log == s.log || s'.log[..|s'.log| - 1] == s.log;
  }

  /** A superseded group check never writes another delay. */
  lemma {:induction false} SupersededNeverWrites(trace: seq<State>, steps: seq<Step>, i: nat, j: nat, c: nat)
    requires Run(trace, steps) && i <= j < |trace| && c < |trace[i].checks| && !Live(trace[i], trace[i].checks[c])
    ensures c < |trace[j].checks| && !Live(trace[j], trace[j].checks[c])
    ensures WritesOf(trace[j].log, c) == WritesOf(trace[i].log, c)
  {
    hide Enabled, Next, WritesOf;
    if i < j {
      SupersededNeverWrites(trace, steps, i, j - 1, c);
      InvAlways(trace, steps, j - 1);
      CheckTask(trace[j - 1].tasks, c, trace[j - 1].checks[c], trace[j - 1].log);
      CheckNext(trace[j - 1], steps[j - 1], c);
      hide LogKept, CheckKept;
      TasksNext(trace[j - 1], steps[j - 1], trace[j - 1].checks[c].group, trace[j - 1].checks[c].task);
    }
  }

  /** No position of a list is measured by two workers, or measured again after it was written. */
  lemma EachPositionOnce(trace: seq<State>, steps: seq<Step>, i: nat, c: nat)
    requires Run(trace, steps) && i < |trace| && c < |trace[i].checks|
    ensures var s := trace[i]; var check := s.checks[c];
      && (forall v, w ::
            0 <= v < w < |check.workers| && check.workers[v].Requesting? && check.workers[w].Requesting? ==>
              check.workers[v].index != check.workers[w].index)
      && (forall v :: 0 <= v < |check.workers| && check.workers[v].Requesting? ==>
            !Written(s.log, c, check.workers[v].index))
      && (forall j, k :: 0 <= j < k < |s.log| && s.log[j].check == s.log[k].check ==> s.log[j].index != s.log[k].index)
  {
    InvAlways(trace, steps, i);
    hide Written, Covered, WorkerCount;
    assert CheckKept(trace[i].tasks, c, trace[i].checks[c], trace[i].log);
  }

  /** A listener ended the worker before the last of `n` positions. */
  predicate EndedEarly(worker: Worker, n: nat) { worker.Thrown? && worker.at + 1 < n }

  /**
   A check that returned true has written a result for every name if and only if there was none, or some worker was
   not ended by a listener before the last position. With a concurrency below one there is no worker: nothing is
   measured and the answer is still true.
   */
  lemma TrueMeansAllMeasured(trace: seq<State>, steps: seq<Step>, i: nat, c: nat)
    requires Run(trace, steps) && i < |trace| && c < |trace[i].checks| && trace[i].checks[c].phase == Returned(true)
    ensures var s := trace[i]; var check := s.checks[c];
      var all := forall n :: 0 <= n < |check.names| ==> Written(s.log, c, n);
      && (all <==> check.names == []
                   || exists w :: 0 <= w < |check.workers| && !EndedEarly(check.workers[w], |check.names|))
      && |check.workers| == WorkerCount(check.concurrency, check.names)
      && ((forall w :: 0 <= w < |check.workers| ==> !check.workers[w].Thrown?) ==>
            (all <==> check.names == [] || check.concurrency >= 1))
      && (check.concurrency < 1 ==> forall n: nat :: !Written(s.log, c, n))
      && (forall k :: 0 <= k < |s.log| ==> HasDelayResult(s.log[k].delay))
  {
    InvAlways(trace, steps, i);
    var s := trace[i];
    var check := s.checks[c];
    assert CheckKept(s.tasks, c, check, s.log);
    assert forall n: nat :: Written(s.log, c, n) ==> n < check.next;
    assert forall n: nat :: !Requested(check.workers, n);
    if check.next < |check.names| {
      assert !Written(s.log, c, check.next);
      assert forall w :: 0 <= w < |check.workers| ==> check.workers[w].Thrown? && check.workers[w].at < check.next;
    } else if check.names != [] {
      var w :| 0 <= w < |check.workers| && PastAllButLast(check.workers[w], check.names);
      assert !EndedEarly(check.workers[w], |check.names|);
    }
    if |check.workers| > 0 && !check.workers[0].Thrown? {
      assert check.workers[0].Gone?;
    }
  }

  // ----- listeners that throw at known positions

  /** In this step, a listener of check `c` throws exactly if the result is for one of the positions. */
  ghost predicate ThrowsAt(s: State, step: Step, c: nat, throwing: set<nat>) {
    Enabled(s, step) && step.Answer? && step.check == c && Live(s, s.checks[c]) ==>
      (step.throws <==> s.checks[c].workers[step.worker].index in throwing)
  }

  ghost predicate HasThrown(workers: seq<Worker>, i: nat) {
    exists w :: 0 <= w < |workers| && workers[w] == Thrown(i)
  }

  /** The workers ended by listeners are those that have written one of the positions. */
  ghost predicate ThrownExact(c: nat, workers: seq<Worker>, log: seq<Write>, throwing: set<nat>) {
    && (forall w :: 0 <= w < |workers| && workers[w].Thrown? ==> workers[w].at in throwing)
    && (forall i: nat :: i in throwing && Written(log, c, i) ==> HasThrown(workers, i))
  }

  lemma WorkerThrows(c: nat, workers: seq<Worker>, log: seq<Write>, throwing: set<nat>, w: nat, delay: int,
      throws: bool)
    requires w < |workers| && workers[w].Requesting? && ThrownExact(c, workers, log, throwing)
    requires throws <==> workers[w].index in throwing
    ensures var index := workers[w].index;
      ThrownExact(c, workers[w := if throws then Thrown(index) else AtHead], log + [Write(c, index, delay)], throwing)
  {
    var index := workers[w].index;
    var workers' := workers[w := if throws then Thrown(index) else AtHead];
    var log' := log + [Write(c, index, delay)];
    forall i: nat | i in throwing && Written(log', c, i)
      ensures HasThrown(workers', i)
    {
      WrittenStays(log, Write(c, index, delay), c, i);
      if i == index {
        assert workers'[w] == Thrown(i);
      } else {
        var v :| 0 <= v < |workers| && workers[v] == Thrown(i);
        assert workers'[v] == Thrown(i);
      }
    }
  }

  /** A worker at its head, or waiting for an answer, moves without writing. */
  lemma WorkerMoves(c: nat, workers: seq<Worker>, log: seq<Write>, throwing: set<nat>, w: nat, worker: Worker)
    requires w < |workers| && !workers[w].Thrown? && !worker.Thrown? && ThrownExact(c, workers, log, throwing)
    ensures ThrownExact(c, workers[w := worker], log, throwing)
  {
    hide Written;
    forall i: nat | i in throwing && Written(log, c, i)
      ensures HasThrown(workers[w := worker], i)
    {
      var v :| 0 <= v < |workers| && workers[v] == Thrown(i);
      assert workers[w := worker][v] == Thrown(i);
    }
  }

  lemma NothingWrittenYet(s: State, c: nat)
    requires Inv(s) && (c == |s.checks| || (c < |s.checks| && s.checks[c].phase.Marking?))
    ensures forall i: nat :: !Written(s.log, c, i)
    ensures c < |s.checks| ==> s.checks[c].workers == []
  {
    if c < |s.checks| {
      assert CheckKept(s.tasks, c, s.checks[c], s.log);
    }
  }

  lemma ThrownExactNext(s: State, step: Step, c: nat, throwing: set<nat>)
    requires Inv(s) && Enabled(s, step) && ThrowsAt(s, step, c, throwing) && c < |Next(s, step).checks|
    requires c < |s.checks| ==> ThrownExact(c, s.checks[c].workers, s.log, throwing)
    ensures ThrownExact(c, Next(s, step).checks[c].workers, Next(s, step).log, throwing)
  {
    var s' := Next(s, step);
    hide Inv, Written, HasThrown;
    match step
    case Restart(_) =>
    case Cancel(_) =>
    case Begin(_, _, _, _) =>
      if c == |s.checks| {
        NothingWrittenYet(s, c);
      }
    case Settle(_) =>
    case Mark(d, _) =>
      if c == d {
        NothingWrittenYet(s, c);
      }
    case Take(d, w) =>
      if c == d {
        WorkerMoves(c, s.checks[c].workers, s.log, throwing, w, s'.checks[c].workers[w]);
        assert s'.checks[c].workers == s.checks[c].workers[w := s'.checks[c].workers[w]];
      }
    case Answer(d, w, _, _, throws) =>
      if !Live(s, s.checks[d]) {
        if c == d {
          WorkerMoves(c, s.checks[c].workers, s.log, throwing, w, Gone);
        }
      } else if c == d {
        WorkerThrows(c, s.checks[c].workers, s.log, throwing, w, s'.log[|s.log|].delay, throws);
      } else {
        OthersWrite(s.log, s'.log[|s.log|], c);
        assert s'.log == s.log + [s'.log[|s.log|]];
      }
  }

  lemma OthersWrite(log: seq<Write>, write: Write, c: nat)
    requires write.check != c
    ensures forall i: nat :: Written(log + [write], c, i) <==> Written(log, c, i)
  {
    forall i: nat
      ensures Written(log + [write], c, i) <==> Written(log, c, i)
    {
      WrittenStays(log, write, c, i);
    }
  }

  lemma {:induction false} ThrownAlwaysExact(trace: seq<State>, steps: seq<Step>, i: nat, c: nat, throwing: set<nat>)
    requires Run(trace, steps) && i < |trace| && c < |trace[i].checks|
    requires forall k :: 0 <= k < i ==> ThrowsAt(trace[k], steps[k], c, throwing)
    ensures ThrownExact(c, trace[i].checks[c].workers, trace[i].log, throwing)
  {
    hide Inv, Next, Enabled, ThrowsAt, ThrownExact;
    assert i > 0;
    if c < |trace[i - 1].checks| {
      ThrownAlwaysExact(trace, steps, i - 1, c, throwing);
    }
    InvAlways(trace, steps, i - 1);
    ThrownExactNext(trace[i - 1], steps[i - 1], c, throwing);
  }

  /** The positions before the last of `n`. */
  function Early(positions: set<nat>, n: nat): set<nat> { set p | p in positions && p + 1 < n }

  /** Those at which workers were ended. */
  function EarlyEnds(workers: seq<Worker>, n: nat): set<nat> {
    set w | 0 <= w < |workers| && EndedEarly(workers[w], n) :: workers[w].at
  }

  /** Distinct positions: all workers were ended early if and only if there are as many such positions as workers. */
  lemma {:induction false} EarlyEndsCount(workers: seq<Worker>, n: nat)
    requires forall v, w :: 0 <= v < w < |workers| && workers[v].Thrown? && workers[w].Thrown? ==>
        workers[v].at != workers[w].at
    ensures |EarlyEnds(workers, n)| <= |workers|
    ensures |EarlyEnds(workers, n)| == |workers| <==> forall w :: 0 <= w < |workers| ==> EndedEarly(workers[w], n)
  {
    if workers != [] {
      var front, last := workers[..|workers| - 1], workers[|workers| - 1];
      EarlyEndsCount(front, n);
      var before := EarlyEnds(front, n);
      assert forall w :: 0 <= w < |front| ==> workers[w] == front[w];
      if EndedEarly(last, n) {
        assert EarlyEnds(workers, n) == before + {last.at};
        assert last.at !in before;
      } else {
        assert EarlyEnds(workers, n) == before;
      }
    }
  }

  lemma SubsetSize(a: set<nat>, b: set<nat>)
    requires a <= b
    ensures |a| <= |b|
  {
    assert b == a + (b - a);
  }

  /**
   If listeners throw exactly for the results at some positions, a check that returned true has measured every name if
   and only if there was none, or fewer positions before the last one throw than there are workers.
   */
  lemma AllMeasuredExactly(trace: seq<State>, steps: seq<Step>, i: nat, c: nat, throwing: set<nat>)
    requires Run(trace, steps) && i < |trace| && c < |trace[i].checks| && trace[i].checks[c].phase == Returned(true)
    requires forall k :: 0 <= k < i ==> ThrowsAt(trace[k], steps[k], c, throwing)
    ensures var s := trace[i]; var check := s.checks[c];
      (forall n :: 0 <= n < |check.names| ==> Written(s.log, c, n)) <==>
        || check.names == []
        || |Early(throwing, |check.names|)| < WorkerCount(check.concurrency, check.names)
  {
    var s := trace[i];
    var check := s.checks[c];
    var early := Early(throwing, |check.names|);
    var ends := EarlyEnds(check.workers, |check.names|);
    InvAlways(trace, steps, i);
    assert CheckKept(s.tasks, c, check, s.log);
    hide Inv, CheckKept, Covered, Claims, WorkerCount, Next, Enabled, Written, HasThrown;
    TrueMeansAllMeasured(trace, steps, i, c);
    ThrownAlwaysExact(trace, steps, i, c, throwing);
    EarlyEndsCount(check.workers, |check.names|);
    assert ends <= early;
    SubsetSize(ends, early);
    if forall n :: 0 <= n < |check.names| ==> Written(s.log, c, n) {
      forall p | p in early
        ensures p in ends
      {
        assert Written(s.log, c, p);
        ThrownIsEarly(check.workers, p, |check.names|);
      }
      assert ends == early;
    }
  }

  lemma ThrownIsEarly(workers: seq<Worker>, p: nat, n: nat)
    requires HasThrown(workers, p) && p + 1 < n
    ensures p in EarlyEnds(workers, n)
  {
    var w :| 0 <= w < |workers| && workers[w] == Thrown(p);
    assert EndedEarly(workers[w], n);
  }

  lemma Extend(trace: seq<State>, steps: seq<Step>, step: Step) returns (trace': seq<State>, steps': seq<Step>)
    requires Run(trace, steps) && Enabled(trace[|steps|], step)
    ensures Run(trace', steps') && steps' == steps + [step]
    ensures trace' == trace + [Next(trace[|steps|], step)]
  {
    hide Next, Enabled;
    steps' := steps + [step];
    trace' := trace + [Next(trace[|steps|], step)];
  }

  const TASKS := Tasks(1, map["g" := 1], {})
  const NAMES := ["a", "b"]
  const BEGUN := State(TASKS, [Check("g", 1, NAMES, 1, 0, 0, [], Marking)], [])

  lemma BegunIsReachable() returns (trace: seq<State>, steps: seq<Step>)
    ensures Run(trace, steps) && trace[|steps|] == BEGUN
  {
    trace, steps := [INIT], [];
    trace, steps := Extend(trace, steps, Restart("g"));
    assert trace[1] == State(TASKS, [], []);
    assert NAMES[1..] == ["b"] && ["b"][1..] == [];
    assert NonEmpty(NAMES) == NAMES;
    trace, steps := Extend(trace, steps, Begin("g", 1, NAMES, 1));
    assert trace[2].checks == BEGUN.checks;
  }

  /** One worker is about to ask for the first of two names. */
  const ASKING := State(TASKS, [Check("g", 1, NAMES, 1, 2, 1, [Requesting(0)], Working)], [])

  lemma AskingIsReachable() returns (trace: seq<State>, steps: seq<Step>)
    ensures Run(trace, steps) && trace[|steps|] == ASKING
  {
    trace, steps := BegunIsReachable();
    trace, steps := Extend(trace, steps, Mark(0, false));
    trace, steps := Extend(trace, steps, Mark(0, false));
    trace, steps := Extend(trace, steps, Mark(0, false));
    assert trace[|steps|].checks[0].workers == [AtHead];
    trace, steps := Extend(trace, steps, Take(0, 0));
    assert trace[|steps|].checks[0].workers == [Requesting(0)];
    assert trace[|steps|].checks == ASKING.checks;
  }

  /**
   A listener that throws ends the only worker: the check still returns true, and the second name was never measured.
   */
  lemma ThrowingListenerHidesTheRest() returns (trace: seq<State>, steps: seq<Step>)
    ensures Run(trace, steps)
    ensures var s := trace[|steps|];
      && |s.checks| == 1 && s.checks[0].names == ["a", "b"] && s.checks[0].concurrency == 1
      && s.checks[0].phase == Returned(true) && !Written(s.log, 0, 1)
  {
    trace, steps := AskingIsReachable();
    trace, steps := Extend(trace, steps, Answer(0, 0, Some(7), Some(8), true));
    trace, steps := Extend(trace, steps, Settle(0));
  }
}
