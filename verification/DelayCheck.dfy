/**
 Group delay checks. JavaScript runs one piece of code at a time; checks, their workers, restarts and cancellations
 interleave at every await and at every listener call.
 */
module DelayCheck {
  import opened Wrappers

  // ----- results

  const UNKNOWN := -1
  const PENDING := -2
  const NOT_APPLICABLE := -3
  const UNREACHABLE := -4
  const FAILED := 1000000

  predicate HasDelayResult(delay: int) { delay != UNKNOWN && delay != PENDING }

  /** What the two requests for a name answered. */
  function Answers(first: Option<nat>, second: Option<nat>): set<int> {
    (if first.Some? then {first.value} else {}) + (if second.Some? then {second.value} else {})
  }

  /** `requestDelay`: the lower of two measurements, or the sentinel for a node that answered neither. */
  function Measured(name: string, first: Option<nat>, second: Option<nat>): (delay: int)
    ensures HasDelayResult(delay)
    ensures name == "REJECT" ==> delay == -3
    ensures name != "REJECT" && (first.Some? || second.Some?) ==>
        delay in Answers(first, second) && forall answer :: answer in Answers(first, second) ==> delay <= answer
    ensures name == "DIRECT" && first.None? && second.None? ==> delay == -4
    ensures name != "REJECT" && name != "DIRECT" && first.None? && second.None? ==> delay == 1000000
  {
    if name == "REJECT" then NOT_APPLICABLE
    else if first.Some? && second.Some? then if first.value <= second.value then first.value else second.value
    else if first.Some? then first.value
    else if second.Some? then second.value
    else if name == "DIRECT" then UNREACHABLE
    else FAILED
  }

  // ----- tasks

  /** Last task id drawn, the latest task of every group, and the tasks aborted. */
  datatype Tasks = Tasks(last: nat, latest: map<string, nat>, aborted: set<nat>)
  {
    predicate IsCurrent(group: string, id: nat) {
      id !in aborted && group in latest && latest[group] == id
    }

    function Cancelled(group: string): Tasks {
      if group in latest then this.(aborted := aborted + {latest[group]}) else this
    }

    function Started(group: string): Tasks {
      Cancelled(group).(last := last + 1, latest := latest[group := last + 1])
    }

    /** Task ids of the latest tasks have been drawn. */
    ghost predicate Valid() {
      && (forall g :: g in latest ==> 1 <= latest[g] <= last)
      && (forall id :: id in aborted ==> id <= last)
    }
  }

  /** `filter(Boolean)`: empty names are dropped. */
  function NonEmpty(names: seq<string>): (valid: seq<string>)
    ensures forall n :: n in valid ==> n != "" && n in names
  {
    if names == [] then []
    else (if names[0] == "" then [] else [names[0]]) + NonEmpty(names[1..])
  }

  class DelayManager {
    var cache: map<(string, string), int>
    var last: nat
    var latest: map<string, nat>
    var aborted: set<nat>

    constructor ()
      ensures View() == Tasks(0, map[], {}) && cache == map[]
    {
      cache, last, latest, aborted := map[], 0, map[], {};
    }

    function View(): Tasks
      reads this
    {
      Tasks(last, latest, aborted)
    }

    method CancelGroupCheck(group: string)
      modifies this
      ensures View() == old(View()).Cancelled(group) && cache == old(cache)
    {
      if group in latest {
        aborted := aborted + {latest[group]};
      }
    }

    method StartGroupCheck(group: string) returns (task: nat)
      requires View().Valid()
      modifies this
      ensures View() == old(View()).Started(group) && View().Valid() && cache == old(cache)
      ensures task == last && View().IsCurrent(group, task)
    {
      CancelGroupCheck(group);
      last := last + 1;
      task := last;
      latest := latest[group := task];
    }

    method SetDelay(name: string, group: string, delay: int)
      modifies this`cache
      ensures cache == old(cache)[(group, name) := delay]
    {
      cache := cache[(group, name) := delay];
    }

    /** With listeners that leave the tasks alone, all names are marked or none. */
    method SetGroupPending(names: seq<string>, group: string, task: nat) returns (current: bool)
      modifies this`cache
      ensures current == View().IsCurrent(group, task)
      ensures !current ==> cache == old(cache)
      ensures current ==> forall n :: n in names && n != "" ==> (group, n) in cache && cache[(group, n)] == PENDING
      ensures forall k :: k in cache && !(current && k.0 == group && k.1 in names) ==>
          k in old(cache) && cache[k] == old(cache)[k]
      ensures forall k :: k in old(cache) ==> k in cache
    {
      var valid := NonEmpty(names);
      if !View().IsCurrent(group, task) {
        return false;
      }
      for i := 0 to |valid|
        invariant forall n :: n in valid[..i] ==> (group, n) in cache && cache[(group, n)] == PENDING
        invariant forall k :: k in cache && !(k.0 == group && k.1 in valid) ==>
            k in old(cache) && cache[k] == old(cache)[k]
        invariant forall k :: k in old(cache) ==> k in cache
      {
        if !View().IsCurrent(group, task) {
          return false;
        }
        SetDelay(valid[i], group, PENDING);
      }
      NothingValidDropped(names);
      current := View().IsCurrent(group, task);
    }
  }

  lemma {:induction false} NothingValidDropped(names: seq<string>)
    ensures forall n :: n in names && n != "" ==> n in NonEmpty(names)
  {
    if names != [] {
      NothingValidDropped(names[1..]);
    }
  }

  // ----- checks as a machine

  /** A worker leaves at its loop head, or because a listener threw while its result for a position was stored. */
  datatype Worker = AtHead | Requesting(index: nat) | Gone | Thrown(at: nat)
  {
    predicate Over() { Gone? || Thrown? }
  }

  /** One call of `checkListDelay`; `marked` counts the names already set to pending. */
  datatype Check = Check(group: string, task: nat, names: seq<string>, concurrency: int,
                         marked: nat, next: nat, workers: seq<Worker>, phase: Phase)

  datatype Phase = Marking | Working | Returned(result: bool) | Rejected

  /** A delay stored by a worker of check `check` for the name at `index`. */
  datatype Write = Write(check: nat, index: nat, delay: int)

  datatype State = State(tasks: Tasks, checks: seq<Check>, log: seq<Write>)

  datatype Step =
    | Restart(group: string)
    | Cancel(group: string)
    | Begin(group: string, task: nat, names: seq<string>, concurrency: int)
    | Mark(check: nat, throws: bool)                     // one name set to pending, or the workers spawned
    | Take(check: nat, worker: nat)                      // a worker at its loop head
    | Answer(check: nat, worker: nat, first: Option<nat>, second: Option<nat>, throws: bool)
    | Settle(check: nat)                                 // all workers are over

  const INIT := State(Tasks(0, map[], {}), [], [])

  function WorkerCount(concurrency: int, names: seq<string>): nat {
    if concurrency <= 0 then 0 else if concurrency < |names| then concurrency else |names|
  }

  predicate Enabled(s: State, step: Step) {
    match step
    case Restart(_) => true
    case Cancel(_) => true
    case Begin(_, task, _, _) => 1 <= task <= s.tasks.last
    case Mark(c, _) => c < |s.checks| && s.checks[c].phase.Marking?
    case Take(c, w) =>
      c < |s.checks| && s.checks[c].phase.Working? && w < |s.checks[c].workers| && s.checks[c].workers[w].AtHead?
    case Answer(c, w, _, _, _) =>
      c < |s.checks| && s.checks[c].phase.Working? && w < |s.checks[c].workers| && s.checks[c].workers[w].Requesting?
    case Settle(c) =>
      c < |s.checks| && s.checks[c].phase.Working? && forall w :: 0 <= w < |s.checks[c].workers| ==>
          s.checks[c].workers[w].Over()
  }

  predicate Live(s: State, check: Check) { s.tasks.IsCurrent(check.group, check.task) }

  function With(s: State, c: nat, check: Check): State
    requires c < |s.checks|
  {
    s.(checks := s.checks[c := check])
  }

  function Next(s: State, step: Step): State
    requires Enabled(s, step)
  {
    match step
    case Restart(group) => s.(tasks := s.tasks.Started(group))
    case Cancel(group) => s.(tasks := s.tasks.Cancelled(group))
    case Begin(group, task, names, concurrency) =>
      s.(checks := s.checks + [Check(group, task, NonEmpty(names), concurrency, 0, 0, [], Marking)])
    case Mark(c, throws) =>
      var check := s.checks[c];
      if !Live(s, check) then With(s, c, check.(phase := Returned(false)))
      else if throws then With(s, c, check.(phase := Rejected))
      else if check.marked < |check.names| then With(s, c, check.(marked := check.marked + 1))
      else With(s, c, check.(workers := seq(WorkerCount(check.concurrency, check.names), _ => AtHead),
          phase := Working))
    case Take(c, w) =>
      var check := s.checks[c];
      if !Live(s, check) then With(s, c, check.(workers := check.workers[w := Gone]))
      else
        With(s, c, check.(next := check.next + 1,
                          workers := check.workers[w := if check.next < |check.names| then Requesting(check.next)
                                                        else Gone]))
    case Answer(c, w, first, second, throws) =>
      var check := s.checks[c];
      if !Live(s, check) then With(s, c, check.(workers := check.workers[w := Gone]))
      else
        var index := check.workers[w].index;
        var delay := if index < |check.names| then Measured(check.names[index], first, second) else UNKNOWN;
        var worker := if throws then Thrown(index) else AtHead;
        With(s, c, check.(workers := check.workers[w := worker])).(log := s.log + [Write(c, index, delay)])
    case Settle(c) => With(s, c, s.checks[c].(phase := Returned(Live(s, s.checks[c]))))
  }

  ghost predicate Run(trace: seq<State>, steps: seq<Step>) {
    && |trace| == |steps| + 1
    && trace[0] == INIT
    && forall i :: 0 <= i < |steps| ==> Enabled(trace[i], steps[i]) && trace[i + 1] == Next(trace[i], steps[i])
  }
}
