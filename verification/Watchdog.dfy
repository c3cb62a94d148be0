/** The supervisor loop: restarting the app after failures and on request, without restarting it for ever. */
module Watchdog {
  import opened Wrappers

  const MAX_RETRIES := 3
  const RESTART_EXIT_CODE := 42
  const RESTART_WINDOW_SECS := 60
  const RESTART_LIMIT_PER_WINDOW := 5

  /** How a child ended: its exit code, or `None` if it could not be run, and the clock in milliseconds. */
  datatype Exit = Exit(code: Option<int>, now: int)

  /** The time since `t` in whole seconds is below the window. */
  predicate InWindow(t: int, now: int) { (now - t) / 1000 < RESTART_WINDOW_SECS }

  function Recent(times: seq<int>, now: int): (recent: seq<int>)
    ensures |recent| <= |times|
  {
    if times == [] then []
    else Recent(times[..|times| - 1], now) + (if InWindow(times[|times| - 1], now) then [times[|times| - 1]] else [])
  }

  // ----- the simple form: the whole history is kept

  /** Consecutive failures, restarts granted, launches so far, and the exit code once the supervisor stopped. */
  datatype History = History(retries: nat, granted: seq<int>, launches: nat, stopped: Option<int>)

  const STARTED := History(0, [], 1, None)

  /** After one more child ended. */
  function After(h: History, exit: Exit): History
    requires h.stopped.None?
  {
    if exit.code == Some(0) then h.(stopped := Some(0))
    else if exit.code == Some(RESTART_EXIT_CODE) then
      if |Recent(h.granted, exit.now)| >= RESTART_LIMIT_PER_WINDOW then h.(stopped := Some(RESTART_EXIT_CODE))
      else h.(retries := 0, granted := h.granted + [exit.now], launches := h.launches + 1)
    else
      if h.retries == MAX_RETRIES then h.(stopped := Some(if exit.code.Some? then exit.code.value else 1))
      else h.(retries := h.retries + 1, launches := h.launches + 1)
  }

  /** After the first `k` children ended; nothing happens once the supervisor stopped. */
  function Supervised(exits: seq<Exit>, k: nat): History
    requires k <= |exits|
  {
    if k == 0 then STARTED
    else
      var h := Supervised(exits, k - 1);
      if h.stopped.Some? then h else After(h, exits[k - 1])
  }

  ghost predicate Monotone(exits: seq<Exit>) {
    forall i, j :: 0 <= i <= j < |exits| ==> exits[i].now <= exits[j].now
  }

  // ----- the loop: restart times are forgotten as they leave the window

  /** `restart_times.retain` */
  method Retain(times: seq<int>, now: int) returns (kept: seq<int>)
    ensures kept == Recent(times, now)
  {
    kept := [];
    for i := 0 to |times|
      invariant kept == Recent(times[..i], now)
    {
      assert times[..i + 1][..i] == times[..i];
      if InWindow(times[i], now) {
        kept := kept + [times[i]];
      }
    }
    assert times[..|times|] == times;
  }

  /** Runs until the supervisor stops or the given children are used up. */
  method Supervise(exits: seq<Exit>) returns (code: Option<int>, launches: nat)
    requires Monotone(exits)
    ensures code == Supervised(exits, |exits|).stopped && launches == Supervised(exits, |exits|).launches
  {
    var retries: nat := 0;
    var restartTimes: seq<int> := [];
    launches := 1;
    var k := 0;
    while k < |exits|
      invariant k <= |exits|
      invariant var h := Supervised(exits, k);
        h.stopped.None? && h.retries == retries && h.launches == launches
      invariant forall now :: (forall i :: 0 <= i < k ==> exits[i].now <= now) ==>
        Recent(restartTimes, now) == Recent(Supervised(exits, k).granted, now)
    {
      var exit := exits[k];
      ghost var h := Supervised(exits, k);
      ghost var forgotten := restartTimes;
      k := k + 1;
      if exit.code == Some(0) {
        StaysStopped(exits, k, |exits|);
        return Some(0), launches;
      } else if exit.code == Some(RESTART_EXIT_CODE) {
        restartTimes := Retain(restartTimes, exit.now);
        assert restartTimes == Recent(h.granted, exit.now);
        if |restartTimes| >= RESTART_LIMIT_PER_WINDOW {
          StaysStopped(exits, k, |exits|);
          return Some(RESTART_EXIT_CODE), launches;
        }
        forall now | exit.now <= now
          ensures Recent(restartTimes + [exit.now], now) == Recent(h.granted + [exit.now], now)
        {
          RecentAgain(h.granted, exit.now, now);
          RecentAppends(restartTimes, exit.now, now);
          RecentAppends(h.granted, exit.now, now);
        }
        restartTimes := restartTimes + [exit.now];
        retries := 0;
      } else {
        if retries == MAX_RETRIES {
          StaysStopped(exits, k, |exits|);
          return Some(if exit.code.Some? then exit.code.value else 1), launches;
        }
        retries := retries + 1;
      }
      launches := launches + 1;
    }
    code := None;
  }

  lemma RecentAppends(times: seq<int>, t: int, now: int)
    ensures Recent(times + [t], now) == Recent(times, now) + (if InWindow(t, now) then [t] else [])
  {
    assert (times + [t])[..|times|] == times;
  }

  /** What has left the window does not come back: pruning twice is pruning once, later. */
  lemma {:induction false} RecentAgain(times: seq<int>, earlier: int, now: int)
    requires earlier <= now
    ensures Recent(Recent(times, earlier), now) == Recent(times, now)
  {
    if times != [] {
      var init, last := times[..|times| - 1], times[|times| - 1];
      RecentAgain(init, earlier, now);
      if InWindow(last, earlier) {
        RecentAppends(Recent(init, earlier), last, now);
      } else {
        assert !InWindow(last, now);
        assert Recent(times, earlier) == Recent(init, earlier);
        assert Recent(times, now) == Recent(init, now);
      }
    }
  }

  lemma {:induction false} StaysStopped(exits: seq<Exit>, k: nat, n: nat)
    requires k <= n <= |exits| && Supervised(exits, k).stopped.Some?
    ensures Supervised(exits, n) == Supervised(exits, k)
  {
    if k < n {
      StaysStopped(exits, k, n - 1);
    }
  }

  // ----- what the limits amount to

  /** Times of an ascending list from some position on that are all in the window are all recent. */
  lemma {:induction false} RecentHolds(times: seq<int>, now: int, from: nat)
    requires from <= |times| && forall i :: from <= i < |times| ==> InWindow(times[i], now)
    ensures |Recent(times, now)| >= |times| - from
  {
    if from < |times| {
      RecentHolds(times[..|times| - 1], now, from);
    }
  }

  ghost predicate Ascending(times: seq<int>) {
    forall i, j :: 0 <= i <= j < |times| ==> times[i] <= times[j]
  }

  /** What every state of the supervisor satisfies. */
  ghost predicate Kept(h: History, now: int) {
    && h.retries <= MAX_RETRIES
    && h.launches <= (MAX_RETRIES + 1) * |h.granted| + 1 + h.retries
    && Ascending(h.granted) && (forall i :: 0 <= i < |h.granted| ==> h.granted[i] <= now)
    && (forall i :: 0 <= i && i + RESTART_LIMIT_PER_WINDOW < |h.granted| ==>
          h.granted[i + RESTART_LIMIT_PER_WINDOW] - h.granted[i] >= 1000 * RESTART_WINDOW_SECS)
  }

  lemma KeptAfter(h: History, exit: Exit, now: int)
    requires h.stopped.None? && Kept(h, now) && now <= exit.now
    ensures Kept(After(h, exit), exit.now)
  {
    var h' := After(h, exit);
    var n := |h.granted|;
    if |h'.granted| > n && n >= RESTART_LIMIT_PER_WINDOW {
      var first := n - RESTART_LIMIT_PER_WINDOW;
      if InWindow(h.granted[first], exit.now) {
        RecentHolds(h.granted, exit.now, first);
      }
      assert exit.now - h.granted[first] >= 1000 * RESTART_WINDOW_SECS;
    }
  }

  lemma {:induction false} KeptAlways(exits: seq<Exit>, k: nat, now: int)
    requires Monotone(exits) && k <= |exits| && forall i :: 0 <= i < k ==> exits[i].now <= now
    ensures Kept(Supervised(exits, k), now)
  {
    if k > 0 {
      KeptAlways(exits, k - 1, exits[k - 1].now);
      var h := Supervised(exits, k - 1);
      if h.stopped.None? {
        KeptAfter(h, exits[k - 1], exits[k - 1].now);
      }
    }
  }

  /** Any six consecutive granted restarts span at least the window. */
  lemma SixRestartsSpanTheWindow(exits: seq<Exit>, i: nat)
    requires Monotone(exits)
    requires i + RESTART_LIMIT_PER_WINDOW < |Supervised(exits, |exits|).granted|
    ensures var granted := Supervised(exits, |exits|).granted;
      granted[i + RESTART_LIMIT_PER_WINDOW] - granted[i] >= 60000
  {
    if exits != [] {
      KeptAlways(exits, |exits|, exits[|exits| - 1].now);
    }
  }

  /** Failures alone never start the app more than four times between two granted restarts. */
  lemma LaunchesAreBounded(exits: seq<Exit>)
    requires Monotone(exits)
    ensures var h := Supervised(exits, |exits|); h.launches <= 4 * (|h.granted| + 1)
  {
    KeptAlways(exits, |exits|, if exits == [] then 0 else exits[|exits| - 1].now);
  }

  // ----- the supervisor in terms of the children alone

  predicate IsFailure(exit: Exit) { exit.code != Some(0) && exit.code != Some(RESTART_EXIT_CODE) }

  /** How many failures in a row the first `k` exits end with. */
  function FailuresInARow(exits: seq<Exit>, k: nat): nat
    requires k <= |exits|
  {
    if k > 0 && IsFailure(exits[k - 1]) then 1 + FailuresInARow(exits, k - 1) else 0
  }

  /** When the first `k` exits asked for a restart. */
  function Requests(exits: seq<Exit>, k: nat): seq<int>
    requires k <= |exits|
  {
    if k == 0 then []
    else Requests(exits, k - 1) + (if exits[k - 1].code == Some(RESTART_EXIT_CODE) then [exits[k - 1].now] else [])
  }

  /** A supervisor still running has launched once more than children ended, and has granted every request. */
  lemma {:induction false} WhileItRuns(exits: seq<Exit>, k: nat)
    requires k <= |exits| && Supervised(exits, k).stopped.None?
    ensures var h := Supervised(exits, k);
      h.retries == FailuresInARow(exits, k) && h.granted == Requests(exits, k) && h.launches == k + 1
  {
    if k > 0 {
      WhileItRuns(exits, k - 1);
    }
  }

  /** How many of the first `k` exits asked for a restart less than 60 seconds before `now`. */
  function RequestsWithin(exits: seq<Exit>, k: nat, now: int): nat
    requires k <= |exits|
  {
    if k == 0 then 0
    else
      RequestsWithin(exits, k - 1, now)
      + (if exits[k - 1].code == Some(42) && now - exits[k - 1].now < 60000 then 1 else 0)
  }

  lemma {:induction false} RequestsCounted(exits: seq<Exit>, k: nat, now: int)
    requires k <= |exits|
    ensures |Recent(Requests(exits, k), now)| == RequestsWithin(exits, k, now)
  {
    if k > 0 {
      RequestsCounted(exits, k - 1, now);
      if exits[k - 1].code == Some(RESTART_EXIT_CODE) {
        RecentAppends(Requests(exits, k - 1), exits[k - 1].now, now);
        assert InWindow(exits[k - 1].now, now) <==> now - exits[k - 1].now < 60000;
      } else {
        assert Requests(exits, k) == Requests(exits, k - 1);
      }
    }
  }

  /**
   It stops with a child exactly if that child ended normally, asked for a restart after five others less than
   60 seconds ago, or failed for the fourth time in a row.
   */
  lemma StopsExactlyWhen(exits: seq<Exit>, k: nat)
    requires k < |exits| && Supervised(exits, k).stopped.None?
    ensures Supervised(exits, k + 1).stopped ==
      if exits[k].code == Some(0) then Some(0)
      else if exits[k].code == Some(42) then
        if RequestsWithin(exits, k, exits[k].now) >= 5 then Some(42) else None
      else if FailuresInARow(exits, k + 1) == 4 then Some(if exits[k].code.Some? then exits[k].code.value else 1)
      else None
  {
    WhileItRuns(exits, k);
    RequestsCounted(exits, k, exits[k].now);
    if Supervised(exits, k + 1).stopped.None? {
      WhileItRuns(exits, k + 1);
    }
  }
}
