/** The object that owns the system proxy: enabling, guarding, disabling and recovering it. */
module Sysopt {
  import opened Wrappers
  import opened ProxyServer
  import opened ProxyRegistry
  import opened ProxyRecovery

  /** What the app remembers between operations. */
  datatype Memory = Memory(
    cur: Option<Sysproxy>, oldProxy: Option<Sysproxy>,
    oldWindows: Option<Snapshot>, ownedWindows: Option<Snapshot>)

  datatype World = World(disk: Disk, memory: Memory)

  /** One attempt to set the proxy, as the foreign calls turn out. */
  datatype Attempt = Attempt(
    wininetOk: bool, wininetWrites: Option<Snapshot>,
    fallbackCommits: bool, fallbackOk: bool, readable: bool)
  {
    /** WinINet leaves the registry alone or makes it show the target. */
    predicate Plausible(target: Sysproxy) {
      && (wininetWrites.Some? ==> wininetWrites.value.WellFormed() && Shows(wininetWrites.value, target))
      && (fallbackOk ==> fallbackCommits)
    }
  }

  /** How the foreign calls of one operation turn out. */
  datatype Faults = Faults(
    ready: bool,            // local listener and core are up
    captures: bool,         // snapshot before the write
    readable: bool,         // readback before the write
    prepares: bool,         // journal transaction before the write
    attempts: seq<Attempt>,
    recaptures: bool,       // snapshot after the write
    records: bool,          // journal transaction after the write
    restores: bool,         // restore transaction (rollback or disable) commits
    notifies: bool,         // and Windows is told about it
    clears: bool,           // the journal key is deleted
    rearmPrepares: bool,    // journal transactions after a rollback
    rearmRecords: bool)
  {
    predicate WritesSucceed() { restores && notifies && clears }

    predicate Plausible(target: Sysproxy) {
      && |attempts| == 3
      && forall i :: 0 <= i < 3 ==> attempts[i].Plausible(target)
    }
  }

  function AppTarget(port: nat, bypass: string): Sysproxy { Sysproxy(true, "127.0.0.1", port, bypass) }

  function DisabledTarget(port: nat, bypass: string): Sysproxy { Sysproxy(false, "127.0.0.1", port, bypass) }

  /** What one attempt makes of the registry, and whether it was found good. */
  function AfterAttempt(p: Snapshot, target: Sysproxy, a: Attempt, fallback: bool): (Snapshot, bool) {
    var written := if a.wininetWrites.Some? then a.wininetWrites.value else p;
    var shown := if !a.wininetOk && fallback && a.fallbackCommits then RegistryProxySet(written, target) else written;
    var actual := if a.readable then SystemProxy(shown) else None;
    (shown, (a.wininetOk || (fallback && a.fallbackOk)) && (actual.None? || Matches(actual.value, target)))
  }

  /** Attempts go on until one is found good. */
  function AfterAttempts(p: Snapshot, target: Sysproxy, attempts: seq<Attempt>, fallback: bool): (Snapshot, bool)
    decreases attempts
  {
    if attempts == [] then (p, false)
    else
      var (shown, good) := AfterAttempt(p, target, attempts[0], fallback);
      if good then (shown, true) else AfterAttempts(shown, target, attempts[1..], fallback)
  }

  /** The attempt says that it worked. */
  predicate Reported(a: Attempt) { a.wininetOk || a.fallbackOk }

  predicate Wrote(a: Attempt) { a.wininetWrites.Some? || (!a.wininetOk && a.fallbackCommits) }

  /** Some attempt says that it worked, and then the target shows or nobody can tell. */
  predicate Convincing(p: Snapshot, target: Sysproxy, attempts: seq<Attempt>) {
    exists i :: 0 <= i < |attempts| && Reported(attempts[i])
                && (Wrote(attempts[i]) || !attempts[i].readable || Shows(p, target))
  }

  predicate SomeReported(attempts: seq<Attempt>) { exists i :: 0 <= i < |attempts| && Reported(attempts[i]) }

  predicate AllReadable(attempts: seq<Attempt>) { forall i :: 0 <= i < |attempts| ==> attempts[i].readable }

  predicate AllPlausible(target: Sysproxy, attempts: seq<Attempt>) {
    forall i :: 0 <= i < |attempts| ==> attempts[i].Plausible(target)
  }

  lemma AttemptShows(p: Snapshot, target: Sysproxy, a: Attempt)
    requires Sensible(target) && a.Plausible(target)
    ensures var r := AfterAttempt(p, target, a, true);
      && (if Wrote(a) then Shows(r.0, target) else r.0 == p)
      && (Reported(a) && (Wrote(a) || !a.readable || Shows(p, target)) ==> r.1)
      && (r.1 ==> Reported(a))
      && (r.1 && a.readable && SystemProxy(p).Some? ==> Shows(r.0, target))
  {
    FallbackShowsTarget(if a.wininetWrites.Some? then a.wininetWrites.value else p, target);
    hide SystemProxy, RegistryProxySet, Matches;
  }

  /** A convincing attempt is enough, none that reports success is not, and where all can be read the target shows. */
  lemma {:induction false} AttemptsSucceed(p: Snapshot, target: Sysproxy, attempts: seq<Attempt>)
    requires Sensible(target) && AllPlausible(target, attempts)
    ensures var r := AfterAttempts(p, target, attempts, true);
      && (Convincing(p, target, attempts) ==> r.1)
      && (r.1 ==> SomeReported(attempts))
      && (r.1 && SystemProxy(p).Some? && AllReadable(attempts) ==> Shows(r.0, target))
    decreases attempts
  {
    if attempts != [] {
      var a, rest := attempts[0], attempts[1..];
      AttemptShows(p, target, a);
      AttemptsSucceed(AfterAttempt(p, target, a, true).0, target, rest);
      hide AfterAttempt, Shows, SystemProxy, Sensible;
      assert forall i :: 0 <= i < |rest| ==> rest[i] == attempts[i + 1];
      if Convincing(p, target, attempts) && !AfterAttempt(p, target, a, true).1 {
        var i :| 0 <= i < |attempts| && Reported(attempts[i])
                 && (Wrote(attempts[i]) || !attempts[i].readable || Shows(p, target));
        assert Reported(rest[i - 1]);
      }
      if j :| 0 <= j < |rest| && Reported(rest[j]) {
        assert Reported(attempts[j + 1]);
      }
    }
  }

  predicate ShowsEnabled(cur: Option<Sysproxy>, proxy: Snapshot) {
    cur.Some? && cur.value.enable && Shows(proxy, cur.value)
  }

  lemma AppTargetSensible(port: nat, bypass: string)
    requires 0 < port < 0x1_0000
    ensures Sensible(AppTarget(port, bypass)) && JournalTarget(AppTarget(port, bypass))
  {
  }

  /** `refresh_app_owned_values`: PAC and auto-detect stay as they were when ownership was recorded. */
  function Refreshed(owned: Snapshot, current: Snapshot): Snapshot {
    current.(autoConfigUrl := owned.autoConfigUrl, autoDetect := owned.autoDetect)
  }

  /** Field by field: what WinINet writes by itself stays as recorded, the rest is as found. */
  lemma RefreshedByField(owned: Snapshot, current: Snapshot, field: Field)
    ensures Refreshed(owned, current).Get(field) ==
              if field == AutoConfigURL || field == AutoDetect then owned.Get(field) else current.Get(field)
    ensures Refreshed(owned, current).connectionsExisted == current.connectionsExisted
  {
  }

  /** Every entry of a history from some point on is safe for the same original. */
  ghost predicate SafeFrom(history: seq<Disk>, from: nat, original: Snapshot) {
    forall i :: from <= i < |history| ==> CrashSafe(history[i], original)
  }

  lemma SafeFromExtends(history: seq<Disk>, from: nat, original: Snapshot, d: Disk)
    requires from <= |history|
    ensures SafeFrom(history + [d], from, original) <==> SafeFrom(history, from, original) && CrashSafe(d, original)
  {
    hide CrashSafe;
    assert (history + [d])[|history|] == d;
    assert forall i :: from <= i < |history| ==> (history + [d])[i] == history[i];
  }

  /**
   A successful enable: `took` says whether the state before it was somebody else's. The journal
   goes back to `original`.
   */
  ghost predicate EnableSucceeded(w: World, w': World, target: Sysproxy, took: bool, original: Snapshot,
      readable: bool, recorded: bool) {
    && w'.memory.cur == Some(target)
    && (w'.disk.proxy == w.disk.proxy || Shows(w'.disk.proxy, target))
    && w'.memory.ownedWindows == Some(w'.disk.proxy)
    && w'.memory.oldWindows == (if took then Some(w.disk.proxy) else w.memory.oldWindows)
    && w'.memory.oldProxy ==
       (if !took then w.memory.oldProxy else if readable then SystemProxy(w.disk.proxy) else None)
    && w'.disk.journal == Some(
         if recorded then RecordedOwned(Prepared(w.disk.journal, original, target), w'.disk.proxy, target)
         else Prepared(w.disk.journal, original, target))
  }

  /** The proxy in place is still the app's, and both snapshots for a three-way restore are there. */
  ghost predicate AppOwns(w: World) {
    && w.memory.cur.Some? && Shows(w.disk.proxy, w.memory.cur.value)
    && w.memory.oldWindows.Some? && w.memory.ownedWindows.Some?
  }

  ghost function MergedBack(w: World): Snapshot
    requires AppOwns(w)
  {
    RestoredIfUnchanged(w.memory.oldWindows.value, w.memory.ownedWindows.value, w.disk.proxy)
  }

  lemma PreparedSafeAfterwards(journal: Option<Journal>, original: Snapshot, target: Sysproxy)
    requires JournalTarget(target) && original.WellFormed()
    ensures forall p: Snapshot :: p == original || Shows(p, target) ==>
              CrashSafe(Disk(p, Some(Prepared(journal, original, target))), original)
  {
    forall p: Snapshot | p == original || Shows(p, target)
      ensures CrashSafe(Disk(p, Some(Prepared(journal, original, target))), original)
    {
      PreparedIsSafe(journal, original, target, p);
    }
  }

  /** The disk states a rearming goes through. */
  function RearmSteps(d: Disk, original: Option<Snapshot>, owned: Snapshot, target: Sysproxy,
      faults: Faults): seq<Disk> {
    if !faults.rearmPrepares then []
    else
      var prepared := Prepared(d.journal, if original.Some? then original.value else owned, target);
      [Disk(d.proxy, Some(prepared))]
      + (if faults.rearmRecords then [Disk(d.proxy, Some(RecordedOwned(prepared, owned, target)))] else [])
  }

  /** The original a rearmed journal describes. */
  function RearmSource(original: Option<Snapshot>, owned: Snapshot): Snapshot {
    if original.Some? then original.value else owned
  }

  /** Every disk state of rearming an older session, over a registry `p`, is recoverable to `original`. */
  predicate RearmSafe(
      p: Snapshot, older: Option<Snapshot>, owned: Snapshot, target: Sysproxy, faults: Faults, original: Snapshot)
  {
    var source := RearmSource(older, owned);
    !faults.rearmPrepares || (
      && source == original && (p == source || Shows(p, target))
      && (faults.rearmRecords ==> Recovered(source, owned, target, p) == original))
  }

  lemma RearmStepsSafe(
      d: Disk, older: Option<Snapshot>, owned: Snapshot, target: Sysproxy, faults: Faults, original: Snapshot)
    requires JournalTarget(target) && RearmSource(older, owned).WellFormed()
    ensures SafeFrom(RearmSteps(d, older, owned, target, faults), 0, original)
            <==> RearmSafe(d.proxy, older, owned, target, faults, original)
  {
    hide CrashSafe, Prepared, RecordedOwned, Shows, Recovered, JournalTarget;
    var source := RearmSource(older, owned);
    var prepared := Disk(d.proxy, Some(Prepared(d.journal, source, target)));
    var recorded := Disk(d.proxy, Some(RecordedOwned(Prepared(d.journal, source, target), owned, target)));
    PreparedForAnother(d.journal, source, target, d.proxy, original);
    OwnedForAnother(d.journal, source, target, owned, d.proxy, original);
    SafeFromTwo(prepared, recorded, original);
  }

  lemma SafeFromTwo(a: Disk, b: Disk, original: Snapshot)
    ensures SafeFrom([a], 0, original) <==> CrashSafe(a, original)
    ensures SafeFrom([a] + [b], 0, original) <==> CrashSafe(a, original) && CrashSafe(b, original)
    ensures SafeFrom([a] + [], 0, original) <==> CrashSafe(a, original)
    ensures SafeFrom([], 0, original)
  {
    hide CrashSafe;
    assert [a][0] == a && ([a] + [b])[0] == a && ([a] + [b])[1] == b && [a] + [] == [a];
  }

  /** The disk states of giving up the journal, or rearming it for the session before. */
  function JournalSteps(d: Disk, w: Memory, snapshot: Snapshot, faults: Faults): seq<Disk> {
    if w.cur.Some? && w.cur.value.enable then RearmSteps(d, w.oldWindows, snapshot, w.cur.value, faults)
    else if faults.clears then [Disk(d.proxy, None)] else []
  }

  /** The disk states of a rollback from `d`, whether or not it commits, and of what happens to the journal after it. */
  function RollBackSteps(d: Disk, w: Memory, snapshot: Snapshot, faults: Faults): seq<Disk> {
    if faults.restores
    then [Disk(snapshot, d.journal)] + JournalSteps(Disk(snapshot, d.journal), w, snapshot, faults)
    else JournalSteps(d, w, snapshot, faults)
  }

  /** What a failed enable leaves of the journal does no harm over the registry `left`. */
  predicate RollBackHarmless(left: Snapshot, snapshot: Snapshot, w: Memory, faults: Faults, original: Snapshot) {
    if w.cur.Some? && w.cur.value.enable then RearmSafe(left, w.oldWindows, snapshot, w.cur.value, faults, original)
    else !faults.clears || left == original
  }

  /** The original that an enable prepares its journal for. */
  function EnableOriginal(d: Disk, w: Memory, readable: bool): Snapshot {
    if readable && ShowsEnabled(w.cur, d.proxy) && w.oldWindows.Some? then w.oldWindows.value else d.proxy
  }

  /** Snapshots and target remembered are as the operations leave them. */
  predicate Remembered(w: Memory) {
    && (w.oldWindows.Some? ==> w.oldWindows.value.WellFormed())
    && (w.cur.Some? && w.cur.value.enable ==> JournalTarget(w.cur.value))
  }

  lemma JournalStepsSafe(d: Disk, w: Memory, snapshot: Snapshot, faults: Faults, original: Snapshot)
    requires snapshot.WellFormed() && Remembered(w)
    ensures SafeFrom(JournalSteps(d, w, snapshot, faults), 0, original)
            <==> RollBackHarmless(d.proxy, snapshot, w, faults, original)
  {
    hide CrashSafe, RearmSteps, RearmSafe, JournalTarget;
    NoJournalIsSafe(d.proxy, original);
    SafeFromTwo(Disk(d.proxy, None), d, original);
    if w.cur.Some? && w.cur.value.enable {
      RearmStepsSafe(d, w.oldWindows, snapshot, w.cur.value, faults, original);
    }
  }

  /**
   All that a failed enable does after its writes is safe if and only if a rollback that commits finds its prepared
   journal safe, and what is left of the journal does no harm.
   */
  lemma RollBackStepsSafe(d: Disk, w: Memory, target: Sysproxy, faults: Faults, original: Snapshot, q: Snapshot)
    requires JournalTarget(target) && d.proxy.WellFormed() && original.WellFormed() && Remembered(w)
    ensures var prepared := Some(Prepared(d.journal, original, target));
      SafeFrom(RollBackSteps(Disk(q, prepared), w, d.proxy, faults), 0, original) <==>
        && (faults.restores ==> d.proxy == original || Shows(d.proxy, target))
        && RollBackHarmless(if faults.restores then d.proxy else q, d.proxy, w, faults, original)
  {
    hide CrashSafe, Prepared, Shows, JournalSteps, JournalTarget, RollBackHarmless, Remembered;
    var prepared := Some(Prepared(d.journal, original, target));
    if faults.restores {
      var after := Disk(d.proxy, prepared);
      PreparedIsSafe(d.journal, original, target, d.proxy);
      JournalStepsSafe(after, w, d.proxy, faults, original);
      SafeFromTwo(after, after, original);
      SafeFromJoins([after], JournalSteps(after, w, d.proxy, faults), 0, original);
    } else {
      JournalStepsSafe(Disk(q, prepared), w, d.proxy, faults, original);
    }
  }

  /** Nothing is rearmed, the session rearmed is the one whose proxy is in place, or its original is in place. */
  predicate RearmHarmless(proxy: Snapshot, w: Memory, readable: bool, faults: Faults) {
    || w.cur.None? || !w.cur.value.enable || !faults.rearmPrepares
    || (readable && Shows(proxy, w.cur.value))
    || w.oldWindows.None? || w.oldWindows.value == proxy
  }

  /** For a rollback that commits, harm is done only by rearming an older session over somebody else's proxy. */
  lemma CommittedRollBackHarmless(d: Disk, w: Memory, faults: Faults, readable: bool)
    requires Remembered(w)
    ensures RollBackHarmless(d.proxy, d.proxy, w, faults, EnableOriginal(d, w, readable))
            <==> RearmHarmless(d.proxy, w, readable, faults)
  {
    hide Shows;
    if w.oldWindows.Some? {
      RestoreUndoes(w.oldWindows.value, d.proxy);
    }
    hide RestoredIfUnchanged;
  }

  lemma SafeFromJoins(history: seq<Disk>, more: seq<Disk>, from: nat, original: Snapshot)
    requires from <= |history|
    ensures SafeFrom(history + more, from, original) <==>
        SafeFrom(history, from, original) && SafeFrom(more, 0, original)
  {
    hide CrashSafe;
    assert forall i :: from <= i < |history| ==> (history + more)[i] == history[i];
    assert forall i :: 0 <= i < |more| ==> (history + more)[|history| + i] == more[i];
  }

  function Rearmed(journal: Option<Journal>, original: Option<Snapshot>, owned: Snapshot, target: Sysproxy,
      faults: Faults): Option<Journal> {
    if !faults.rearmPrepares then journal
    else
      var prepared := Prepared(journal, if original.Some? then original.value else owned, target);
      Some(if faults.rearmRecords then RecordedOwned(prepared, owned, target) else prepared)
  }

  /**
   On exit without snapshots: the saved proxy, switched off if it is on the app's own port, else the app's, switched
   off.
   */
  function ResetTarget(saved: Option<Sysproxy>, current: Option<Sysproxy>): Option<Sysproxy> {
    if saved.Some? then
      var portSame := current.None? || saved.value.port == current.value.port;
      Some(if saved.value.enable && portSame then saved.value.(enable := false) else saved.value)
    else if current.Some? && current.value.enable then Some(current.value.(enable := false))
    else None
  }

  /** On exit the app never leaves its own port switched on, and gives back a saved proxy of another port as it was. */
  lemma ResetTargetIs(saved: Option<Sysproxy>, current: Option<Sysproxy>)
    ensures var t := ResetTarget(saved, current);
      && (t.Some? && current.Some? && t.value.enable ==> t.value.port != current.value.port)
      && (saved.Some? && current.Some? && saved.value.port != current.value.port ==> t == saved)
      && (saved.Some? ==> t.Some? && t.value.(enable := saved.value.enable) == saved.value)
      && (saved.None? && current.Some? && current.value.enable ==> t == Some(current.value.(enable := false)))
      && (saved.None? && (current.None? || !current.value.enable) ==> t == None)
  {
  }

  /** What a journal says the registry was, or the registry itself without one. */
  function JournaledOriginal(d: Disk): Snapshot {
    var load := LoadRecovery(d.journal);
    if load.Loaded? then load.recovery.original else d.proxy
  }

  lemma SafeStartRecovers(d: Disk)
    requires CrashSafe(d, JournaledOriginal(d))
    ensures Recover(d).0 == Disk(JournaledOriginal(d), None)
    ensures LoadRecovery(d.journal).Loaded? || LoadRecovery(d.journal).NoJournal?
  {
  }

  lemma RecoveryRefusedUnchanged(d: Disk)
    ensures Recover(d).1 == Refused ==> Recover(d).0 == d
  {
  }

  lemma OwnedSafeIf(journal: Option<Journal>, original: Snapshot, target: Sysproxy, owned: Snapshot)
    requires JournalTarget(target) && original.WellFormed()
    ensures owned == original || Shows(owned, target) ==>
              CrashSafe(Disk(owned, Some(RecordedOwned(Prepared(journal, original, target), owned, target))), original)
  {
    if owned == original || Shows(owned, target) {
      OwnedIsSafe(journal, original, target, owned);
    }
  }

  /** Switching off looks the same whatever endpoint is named. */
  lemma DisabledAlike(attempts: seq<Attempt>, disabled: Sysproxy)
    requires !disabled.enable
    ensures (forall i :: 0 <= i < |attempts| ==> attempts[i].Plausible(Sysproxy(false, "", 0, ""))) ==>
              forall i :: 0 <= i < |attempts| ==> attempts[i].Plausible(disabled)
  {
  }

  /** From some point on every state is safe, except journal-less ones if the journal was given up too early. */
  ghost predicate SafeOrGivenUp(history: seq<Disk>, from: nat, original: Snapshot, gaveUp: bool) {
    forall i :: from <= i < |history| ==>
      CrashSafe(history[i], original) || (gaveUp && history[i].journal.None?)
  }

  lemma SafeThenGivenUp(before: seq<Disk>, after: seq<Disk>, from: nat, original: Snapshot, gaveUp: bool)
    requires before <= after
    ensures SafeFrom(before, from, original) && SafeOrGivenUp(after, |before|, original, gaveUp) ==>
              SafeOrGivenUp(after, from, original, gaveUp)
    ensures SafeFrom(before, from, original) && from < |before| ==> CrashSafe(before[|before| - 1], original)
  {
    hide CrashSafe;
  }

  class Sysopt {
    var proxy: Snapshot
    var journal: Option<Journal>
    var cur: Option<Sysproxy>
    var oldProxy: Option<Sysproxy>
    var oldWindows: Option<Snapshot>
    var ownedWindows: Option<Snapshot>
    ghost var history: seq<Disk>   // every state the disk went through

    ghost predicate Valid()
      reads this
    {
      && proxy.WellFormed()
      && (oldWindows.Some? ==> oldWindows.value.WellFormed())
      && (cur.Some? && cur.value.enable ==> JournalTarget(cur.value))
      && history != [] && history[|history| - 1] == Disk(proxy, journal)
    }

    ghost function Mem(): Memory
      reads this
    {
      Memory(cur, oldProxy, oldWindows, ownedWindows)
    }

    ghost function Now(): World
      reads this
    {
      World(Disk(proxy, journal), Mem())
    }

    constructor (proxy: Snapshot, journal: Option<Journal>)
      requires proxy.WellFormed()
      ensures Valid() && Now() == World(Disk(proxy, journal), Memory(None, None, None, None))
      ensures history == [Disk(proxy, journal)]
    {
      this.proxy := proxy;
      this.journal := journal;
      cur, oldProxy, oldWindows, ownedWindows := None, None, None, None;
      history := [Disk(proxy, journal)];
    }

    /** One committed change of the disk. */
    method Commit(p: Snapshot, j: Option<Journal>)
      requires p.WellFormed() && Valid()
      modifies this`proxy, this`journal, this`history
      ensures Valid() && proxy == p && journal == j
      ensures history == old(history) + [Disk(p, j)]
    {
      proxy := p;
      journal := j;
      history := history + [Disk(p, j)];
    }

    method ClearJournal(clears: bool)
      requires Valid()
      modifies this`proxy, this`journal, this`history
      ensures Valid() && proxy == old(proxy)
      ensures journal == if clears then None else old(journal)
      ensures history == old(history) + (if clears then [Disk(proxy, None)] else [])
    {
      if clears {
        Commit(proxy, None);
      }
    }

    /**
     `set_system_proxy_with_retry`: up to three attempts, each through WinINet and, if allowed, the
     registry. The proxy ends up unchanged or showing the target; success is either verified or
     could not be read back.
     */
    method SetWithRetry(target: Sysproxy, attempts: seq<Attempt>, fallback: bool) returns (ok: bool)
      requires Valid()
      requires |attempts| == 3 && forall i :: 0 <= i < 3 ==> attempts[i].Plausible(target)
      requires fallback ==> Sensible(target)
      modifies this`proxy, this`journal, this`history
      ensures Valid() && journal == old(journal)
      ensures (proxy, ok) == AfterAttempts(old(proxy), target, attempts, fallback)
      ensures proxy == old(proxy) || Shows(proxy, target)
      ensures ok ==> Shows(proxy, target) || SystemProxy(proxy).None? || exists i :: 0 <= i < 3 && !attempts[i].readable
      ensures old(history) <= history
      ensures forall i :: |old(history)| <= i < |history| ==>
                history[i].journal == old(journal)
                    && (history[i].proxy == old(proxy) || Shows(history[i].proxy, target))
    {
      var i := 0;
      ok := false;
      hide AfterAttempt, RegistryProxySet, SystemProxy;
      while i < |attempts|
        invariant 0 <= i <= 3
        invariant Valid() && journal == old(journal)
        invariant AfterAttempts(old(proxy), target, attempts, fallback)
            == AfterAttempts(proxy, target, attempts[i..], fallback)
        invariant proxy == old(proxy) || Shows(proxy, target)
        invariant old(history) <= history
        invariant forall k :: |old(history)| <= k < |history| ==>
                    history[k].journal == old(journal)
                        && (history[k].proxy == old(proxy) || Shows(history[k].proxy, target))
      {
        assert attempts[i..][0] == attempts[i] && attempts[i..][1..] == attempts[i + 1..];
        ok := SetAndCheck(target, attempts[i], fallback);
        if ok {
          return;
        }
        i := i + 1;
      }
    }

    /** One attempt with its readback. */
    method SetAndCheck(target: Sysproxy, a: Attempt, fallback: bool) returns (good: bool)
      requires Valid() && a.Plausible(target)
      requires fallback ==> Sensible(target)
      modifies this`proxy, this`journal, this`history
      ensures Valid() && journal == old(journal)
      ensures (proxy, good) == AfterAttempt(old(proxy), target, a, fallback)
      ensures proxy == old(proxy) || Shows(proxy, target)
      ensures good ==> Shows(proxy, target) || SystemProxy(proxy).None? || !a.readable
      ensures old(history) <= history
      ensures forall k :: |old(history)| <= k < |history| ==>
                history[k].journal == old(journal) && Shows(history[k].proxy, target)
    {
      hide Matches, SystemProxy;
      if a.wininetWrites.Some? {
        Commit(a.wininetWrites.value, journal);
      }
      var done := a.wininetOk;
      if !done && fallback {
        if a.fallbackCommits {
          FallbackShowsTarget(proxy, target);
          Commit(RegistryProxySet(proxy, target), journal);
        }
        done := a.fallbackOk;
      }
      if !done {
        return false;
      }
      var actual := if a.readable then SystemProxy(proxy) else None;
      return actual.None? || Matches(actual.value, target);
    }

    /** `recover_pending` with its two writes; a failed one is reported and leaves the journal. */
    method RecoverPending(restores: bool, notifies: bool, clears: bool) returns (ok: bool)
      requires Valid()
      requires LoadRecovery(journal).Loaded? ==> LoadRecovery(journal).recovery.original.WellFormed()
      modifies this`proxy, this`journal, this`history
      ensures Valid()
      ensures restores && notifies && clears ==>
                Disk(proxy, journal) == Recover(old(Disk(proxy, journal))).0
                && ok == (Recover(old(Disk(proxy, journal))).1 != Refused)
      ensures ok ==>
                && Disk(proxy, journal) == Recover(old(Disk(proxy, journal))).0
                && Recover(old(Disk(proxy, journal))).1 != Refused
      ensures old(history) <= history
      ensures !LoadRecovery(old(journal)).Loaded? ==>
                ok == LoadRecovery(old(journal)).NoJournal? && history == old(history)
      // a crash anywhere inside is as safe as a crash before it
      ensures LoadRecovery(old(journal)).Loaded?
              && CrashSafe(old(Disk(proxy, journal)), LoadRecovery(old(journal)).recovery.original) ==>
                SafeFrom(history, |old(history)|, LoadRecovery(old(journal)).recovery.original)
    {
      hide LoadRecovery, SystemProxy;
      var load := LoadRecovery(journal);
      match load {
        case NoJournal => return true;
        case Corrupt => return false;
        case Loaded(r) =>
          NoJournalIsSafe(r.original, r.original);
          if proxy == r.original {
            ClearJournal(clears);
            return clears;
          }
          var shown := TargetIsCurrent(proxy, r.target);
          if r.owned.None? && !shown {
            return false;
          }
          if shown {
            if !restores {
              return false;
            }
            var owned := if r.owned.Some? then r.owned.value else proxy;
            RestoreIsThreeWay(r.original, owned, proxy, ProxyEnable);
            Commit(RestoredIfUnchanged(r.original, owned, proxy), journal);
            if !notifies {
              return false;
            }
          }
          ClearJournal(clears);
          return clears;
      }
    }

    /** Restore the state before the enable, then give up the journal whether or not that worked. */
    method RollBack(snapshot: Snapshot, restores: bool, clears: bool)
      requires Valid() && snapshot.WellFormed()
      modifies this`proxy, this`journal, this`history
      ensures Valid()
      ensures proxy == if restores then snapshot else old(proxy)
      ensures journal == if clears then None else old(journal)
      ensures old(history) <= history
      ensures CrashSafe(Disk(snapshot, old(journal)), snapshot) ==>
                SafeOrGivenUp(history, |old(history)|, snapshot, !restores)
    {
      hide CrashSafe;
      NoJournalIsSafe(snapshot, snapshot);
      if restores {
        Commit(snapshot, journal);
      }
      ClearJournal(clears);
    }

    /**
     The common part of enabling: prepare the journal for `original`, write the proxy, capture and record what is
     owned. A crash inside it is recoverable throughout if and only if the registry is that original or shows the
     target beforehand.
     */
    method Apply(original: Snapshot, target: Sysproxy, faults: Faults) returns (ok: bool)
      requires Valid() && original.WellFormed() && Sensible(target) && JournalTarget(target) && faults.Plausible(target)
      modifies this`proxy, this`journal, this`history
      ensures Valid()
      ensures var after := AfterAttempts(old(proxy), target, faults.attempts, true);
        proxy == after.0 && ok == (after.1 && faults.recaptures)
      ensures proxy == old(proxy) || Shows(proxy, target)
      ensures journal == Some(if ok && faults.records
          then RecordedOwned(Prepared(old(journal), original, target), proxy, target)
                              else Prepared(old(journal), original, target))
      ensures faults.recaptures && Convincing(old(proxy), target, faults.attempts) ==> ok
      ensures ok ==> SomeReported(faults.attempts)
      ensures ok && SystemProxy(old(proxy)).Some? && AllReadable(faults.attempts) ==> Shows(proxy, target)
      ensures old(history) < history
      ensures SafeFrom(history, |old(history)|, original) <==> old(proxy) == original || Shows(old(proxy), target)
    {
      hide CrashSafe, Prepared, RecordedOwned, SystemProxy, Shows, AfterAttempts;
      AttemptsSucceed(proxy, target, faults.attempts);
      hide Convincing, SomeReported, AllReadable;
      PreparedIsSafe(journal, original, target, proxy);
      PreparedSafeAfterwards(journal, original, target);
      Commit(proxy, Some(Prepared(journal, original, target)));
      var done := SetWithRetry(target, faults.attempts, true);
      assert history[|old(history)|] == Disk(old(proxy), Some(Prepared(old(journal), original, target)));
      ok := done && faults.recaptures;
      if ok && faults.records {
        OwnedSafeIf(old(journal), original, target, proxy);
        SafeFromExtends(history, |old(history)|, original,
            Disk(proxy, Some(RecordedOwned(journal.value, proxy, target))));
        Commit(proxy, Some(RecordedOwned(journal.value, proxy, target)));
      }
    }

    /**
     First enable after start. On success the registry as it was becomes the original to go back to,
     unless it already showed the target. A crash at any point gives the original back; the one
     exception is a rollback that fails after which the journal is given up with the registry changed.
     */
    method FirstEnable(port: nat, bypass: string, faults: Faults) returns (ok: bool)
      requires Valid() && faults.Plausible(AppTarget(port, bypass))
      requires faults.ready ==> 0 < port < 0x1_0000
      modifies this
      ensures Valid()
      ensures ok ==> EnableSucceeded(old(Now()), Now(), AppTarget(port, bypass),
                                     !(faults.readable && Shows(old(proxy), AppTarget(port, bypass))),
                                     old(proxy), faults.readable, faults.records)
      ensures !ok ==> Mem() == old(Mem())
      ensures !ok && faults.restores ==> proxy == old(proxy)
      ensures !(faults.ready && faults.captures && faults.prepares) ==>
          !ok && Now() == old(Now()) && history == old(history)
      ensures faults.ready && faults.captures && faults.prepares ==>
                var after := AfterAttempts(old(proxy), AppTarget(port, bypass), faults.attempts, true);
                && ok == (after.1 && faults.recaptures)
                && proxy == (if !ok && faults.restores then old(proxy) else after.0)
                && (!ok ==> journal == if faults.clears then None
                                       else Some(Prepared(old(journal), old(proxy), AppTarget(port, bypass))))
                // what is left is unsafe exactly if the rollback failed, the journal is gone and the registry changed
                && (CrashSafe(Disk(proxy, journal), old(proxy)) <==>
                      ok || faults.restores || !faults.clears || proxy == old(proxy))
      ensures faults.ready && faults.captures && faults.prepares && faults.recaptures
              && Convincing(old(proxy), AppTarget(port, bypass), faults.attempts) ==>
                ok
      ensures ok ==> SomeReported(faults.attempts)
      ensures ok && SystemProxy(old(proxy)).Some? && AllReadable(faults.attempts) ==>
                Shows(proxy, AppTarget(port, bypass))
      ensures old(history) <= history
      ensures SafeOrGivenUp(history, |old(history)|, old(proxy), !ok && !faults.restores)
    {
      hide CrashSafe, Prepared, RecordedOwned, SystemProxy, Matches, AfterAttempts, Convincing, SomeReported;
      hide AllReadable;
      var current := AppTarget(port, bypass);
      if !faults.ready || !faults.captures {
        return false;
      }
      AppTargetSensible(port, bypass);
      var snapshot := proxy;
      var before := if faults.readable then SystemProxy(proxy) else None;
      var shouldSaveOld := before.None? || !Matches(before.value, current);
      if !faults.prepares {
        return false;
      }
      var done := Apply(snapshot, current, faults);
      assert CrashSafe(history[|history| - 1], snapshot);
      PreparedSafeAfterwards(old(journal), snapshot, current);
      if !done {
        NoJournalIsSafe(proxy, snapshot);
        RollBack(snapshot, faults.restores, faults.clears);
        return false;
      }
      if shouldSaveOld {
        oldProxy := before;
        oldWindows := Some(snapshot);
      }
      ownedWindows := Some(proxy);
      cur := Some(current);
      return true;
    }

    /** `init_sysproxy`: recover what an earlier session left, then enable if configured. */
    method InitSysproxy(enable: bool, port: nat, bypass: string, faults: Faults) returns (ok: bool)
      requires Valid() && faults.Plausible(AppTarget(port, bypass))
      requires faults.ready ==> 0 < port < 0x1_0000
      requires LoadRecovery(journal).Loaded? ==> LoadRecovery(journal).recovery.original.WellFormed()
      modifies this
      ensures Valid()
      ensures faults.WritesSucceed() && Recover(old(Disk(proxy, journal))).1 == Refused ==> !ok && Now() == old(Now())
      ensures faults.WritesSucceed() && Recover(old(Disk(proxy, journal))).1 != Refused && !enable ==>
                ok && Disk(proxy, journal) == Recover(old(Disk(proxy, journal))).0
                && Mem() == old(Mem()).(cur := Some(DisabledTarget(port, bypass)))
      ensures faults.WritesSucceed() && Recover(old(Disk(proxy, journal))).1 != Refused && enable ==>
                var start := Recover(old(Disk(proxy, journal))).0;
                && (ok ==> EnableSucceeded(World(start, old(Mem())), Now(), AppTarget(port, bypass),
                                           !(faults.readable && Shows(start.proxy, AppTarget(port, bypass))),
                                           start.proxy, faults.readable, faults.records))
                && (!ok ==> Mem() == old(Mem()) && proxy == start.proxy)
                && ok == (faults.ready && faults.captures && faults.prepares && faults.recaptures
                          && AfterAttempts(start.proxy, AppTarget(port, bypass), faults.attempts, true).1)
                && (faults.ready && faults.captures && faults.prepares && faults.recaptures
                    && Convincing(start.proxy, AppTarget(port, bypass), faults.attempts) ==>
                      ok)
      ensures old(history) <= history
      // where a crash before the start is recoverable, so is a crash at any point of it, but for a rollback that failed
      ensures CrashSafe(old(Disk(proxy, journal)), JournaledOriginal(old(Disk(proxy, journal)))) ==>
                SafeOrGivenUp(history, |old(history)|, JournaledOriginal(old(Disk(proxy, journal))),
                              !ok && !faults.restores)
    {
      hide LoadRecovery, SystemProxy, Prepared, RecordedOwned, AfterAttempts, Matches, CrashSafe, Recover, Convincing;
      RecoveryRefusedUnchanged(Disk(proxy, journal));
      if CrashSafe(Disk(proxy, journal), JournaledOriginal(Disk(proxy, journal))) {
        SafeStartRecovers(Disk(proxy, journal));
      }
      var recovered := RecoverPending(faults.restores, faults.notifies, faults.clears);
      if !recovered {
        return false;
      }
      if enable {
        ok := FirstEnable(port, bypass, faults);
      } else {
        cur := Some(DisabledTarget(port, bypass));
        ok := true;
      }
    }

    /** `rearm_windows_proxy_recovery`: after a rollback the journal describes the earlier session again. */
    method Rearm(original: Option<Snapshot>, owned: Snapshot, target: Option<Sysproxy>, faults: Faults)
      requires Valid()
      modifies this`proxy, this`journal, this`history
      ensures Valid() && proxy == old(proxy)
      ensures old(history) <= history
      ensures target.None? || !target.value.enable ==>
                && journal == (if faults.clears then None else old(journal))
                && history == old(history) + (if faults.clears then [Disk(proxy, None)] else [])
      ensures target.Some? && target.value.enable ==>
                && journal == Rearmed(old(journal), original, owned, target.value, faults)
                && history ==
                     old(history) + RearmSteps(old(Disk(proxy, journal)), original, owned, target.value, faults)
    {
      if target.None? || !target.value.enable {
        ClearJournal(faults.clears);
        return;
      }
      var source := if original.Some? then original.value else owned;
      if !faults.rearmPrepares {
        return;
      }
      Commit(proxy, Some(Prepared(journal, source, target.value)));
      if faults.rearmRecords {
        Commit(proxy, Some(RecordedOwned(journal.value, owned, target.value)));
      }
    }

    /** The proxy before an enable, and whether it is still what the app set. */
    method ReadBefore(readable: bool) returns (before: Option<Sysproxy>, owned: bool)
      ensures before == if readable then SystemProxy(proxy) else None
      ensures owned == (readable && ShowsEnabled(cur, proxy))
      ensures owned ==> cur.Some? && cur.value.enable
    {
      before := if readable then SystemProxy(proxy) else None;
      owned := cur.Some? && cur.value.enable && before.Some? && Matches(before.value, cur.value);
    }

    /** A failed re-enable: restore the state before it and describe the earlier session again. */
    method RollBackAndRearm(snapshot: Snapshot, faults: Faults)
      requires Valid() && snapshot.WellFormed()
      modifies this`proxy, this`journal, this`history
      ensures Valid()
      ensures proxy == if faults.restores then snapshot else old(proxy)
      ensures journal == if cur.Some? && cur.value.enable
                         then Rearmed(old(journal), oldWindows, snapshot, cur.value, faults)
                         else if faults.clears then None else old(journal)
      ensures old(history) <= history
      ensures history == old(history) + RollBackSteps(old(Disk(proxy, journal)), Mem(), snapshot, faults)
      ensures !(cur.Some? && cur.value.enable) && CrashSafe(Disk(snapshot, old(journal)), snapshot) ==>
                SafeOrGivenUp(history, |old(history)|, snapshot, !faults.restores)
    {
      hide CrashSafe, Rearmed, RearmSteps;
      NoJournalIsSafe(snapshot, snapshot);
      if faults.restores {
        Commit(snapshot, journal);
      }
      Rearm(oldWindows, snapshot, cur, faults);
    }

    /**
     Enabling through `update_sysproxy`. The original is kept while the registry still shows what the
     app set, and replaced by the current state when it shows anything else. A crash at every point is recoverable
     if and only if beforehand the registry is that original or shows the new target and, where the enable fails, what
     is left of the journal does no harm over the registry it leaves.
     */
    method EnableSysproxy(port: nat, bypass: string, faults: Faults) returns (ok: bool)
      requires Valid() && faults.Plausible(AppTarget(port, bypass))
      requires faults.ready ==> 0 < port < 0x1_0000
      modifies this
      ensures Valid()
      ensures ok ==> EnableSucceeded(old(Now()), Now(), AppTarget(port, bypass),
                                     !(faults.readable && ShowsEnabled(old(cur), old(proxy))),
                                     EnableOriginal(old(Disk(proxy, journal)), old(Mem()), faults.readable),
                                     faults.readable, faults.records)
      ensures !ok ==> Mem() == old(Mem())
      ensures !(faults.ready && faults.captures && faults.prepares) ==>
          !ok && Now() == old(Now()) && history == old(history)
      // otherwise it succeeds exactly if an attempt is found good and what it left can be captured
      ensures faults.ready && faults.captures && faults.prepares ==>
                var after := AfterAttempts(old(proxy), AppTarget(port, bypass), faults.attempts, true);
                && ok == (after.1 && faults.recaptures)
                && proxy == if ok || !faults.restores then after.0 else old(proxy)
      ensures faults.ready && faults.captures && faults.prepares && faults.recaptures
              && Convincing(old(proxy), AppTarget(port, bypass), faults.attempts) ==>
                ok && cur == Some(AppTarget(port, bypass)) && ownedWindows == Some(proxy)
      ensures ok ==> SomeReported(faults.attempts)
      ensures ok && SystemProxy(old(proxy)).Some? && AllReadable(faults.attempts) ==>
                Shows(proxy, AppTarget(port, bypass))
      ensures !ok && faults.ready && faults.captures && faults.prepares ==>
                var original := EnableOriginal(old(Disk(proxy, journal)), old(Mem()), faults.readable);
                var prepared := Some(Prepared(old(journal), original, AppTarget(port, bypass)));
                journal == if old(cur).Some? && old(cur).value.enable
                           then Rearmed(prepared, old(oldWindows), old(proxy), old(cur).value, faults)
                           else if faults.clears then None else prepared
      ensures old(history) <= history
      ensures faults.ready && faults.captures && faults.prepares ==>
                var original := EnableOriginal(old(Disk(proxy, journal)), old(Mem()), faults.readable);
                SafeFrom(history, |old(history)|, original) <==>
                  && (old(proxy) == original || Shows(old(proxy), AppTarget(port, bypass)))
                  && (ok || RollBackHarmless(proxy, old(proxy), old(Mem()), faults, original))
      ensures !(old(cur).Some? && old(cur).value.enable) ==>
                SafeOrGivenUp(history, |old(history)|, old(proxy), !ok && !faults.restores)
    {
      hide CrashSafe, Prepared, RecordedOwned, SystemProxy, Shows, ShowsEnabled, Rearmed, SafeFrom;
      hide AfterAttempts, RollBackSteps, RollBackHarmless, Convincing, SomeReported, AllReadable;
      var target := AppTarget(port, bypass);
      if !faults.ready || !faults.captures {
        return false;
      }
      AppTargetSensible(port, bypass);
      var snapshot := proxy;
      var before, currentWasOwned := ReadBefore(faults.readable);
      var recoveryOriginal := if currentWasOwned && oldWindows.Some? then oldWindows.value else snapshot;
      if !faults.prepares {
        return false;
      }
      var done := Apply(recoveryOriginal, target, faults);
      if !done {
        RollBackStepsSafe(old(Disk(proxy, journal)), Mem(), target, faults, recoveryOriginal, proxy);
        SafeFromJoins(history, RollBackSteps(Disk(proxy, journal), Mem(), snapshot, faults), |old(history)|,
            recoveryOriginal);
        PreparedIsSafe(old(journal), recoveryOriginal, target, snapshot);
        ghost var applied := history;
        RollBackAndRearm(snapshot, faults);
        SafeThenGivenUp(applied, history, |old(history)|, snapshot, !faults.restores);
        return false;
      }
      SafeThenGivenUp(history, history, |old(history)|, snapshot, false);
      if !currentWasOwned {
        oldProxy := before;
        oldWindows := Some(snapshot);
      }
      ownedWindows := Some(proxy);
      cur := Some(target);
      return true;
    }

    /** What `update_sysproxy` would set when it disables: the saved proxy only if no snapshot is left. */
    ghost function DisableWrites(): Sysproxy
      reads this
    {
      if oldWindows.None? && ownedWindows.None? && oldProxy.Some? then oldProxy.value
      else Sysproxy(false, "", 0, "")
    }

    /** What a disable does once it has found its own proxy in place. */
    method GiveBack(before: Sysproxy, faults: Faults) returns (ok: bool)
      requires Valid() && faults.Plausible(DisableWrites())
      modifies this
      ensures Valid() && cur == old(cur)
      ensures ok ==> oldWindows == ownedWindows == None
      ensures !ok ==> Mem() == old(Mem()) && journal == old(journal)
      ensures old(oldWindows).Some? && old(ownedWindows).Some? ==>
                && ok == (faults.restores && faults.notifies)
                && proxy == (if faults.restores
                             then RestoredIfUnchanged(old(oldWindows).value, old(ownedWindows).value, old(proxy))
                             else old(proxy))
                && (ok ==> oldProxy.None?)
                && (ok && faults.clears ==> journal == None)
      ensures old(oldWindows).None? && old(ownedWindows).Some? ==>
                && (proxy == old(proxy)
                    || (old(proxy) == old(ownedWindows).value && Shows(proxy, before.(enable := false))))
                && (var (p, good) := AfterAttempts(old(proxy), before.(enable := false), faults.attempts, false);
                    var untouched := old(proxy) == old(ownedWindows).value;
                    && ok == (faults.captures && (untouched ==> good))
                    && proxy == if faults.captures && untouched then p else old(proxy))
      ensures old(oldWindows).None? && old(ownedWindows).None? ==>
                (proxy, ok) == AfterAttempts(
                  old(proxy), if old(oldProxy).Some? then old(oldProxy).value else before.(enable := false),
                  faults.attempts, false)
      ensures ok && faults.clears ==> journal == None
      ensures ok && !faults.clears ==> journal == old(journal)
    {
      hide CrashSafe, Prepared, RecordedOwned, SystemProxy, LoadRecovery, AfterAttempts, Shows, Matches;
      var disabled := before.(enable := false);
      DisabledAlike(faults.attempts, disabled);
      match (oldWindows, ownedWindows) {
        case (Some(original), Some(owned)) =>
          if !faults.restores {
            return false;
          }
          RestoreIsThreeWay(original, owned, proxy, ProxyEnable);
          Commit(RestoredIfUnchanged(original, owned, proxy), journal);
          if !faults.notifies {
            return false;
          }
          oldWindows := None;
          ownedWindows := None;
          ClearJournal(faults.clears);
          oldProxy := None;
        case (Some(_), None) =>
          var done := SetWithRetry(disabled, faults.attempts, false);
          if !done {
            return false;
          }
          oldWindows := None;
          ClearJournal(faults.clears);
          oldProxy := None;
        case (None, Some(owned)) =>
          if !faults.captures {
            return false;
          }
          if proxy == owned {
            var done := SetWithRetry(disabled, faults.attempts, false);
            if !done {
              return false;
            }
          }
          ownedWindows := None;
          ClearJournal(faults.clears);
          oldProxy := None;
        case (None, None) =>
          var restoreTarget := if oldProxy.Some? then oldProxy.value else disabled;
          var done := SetWithRetry(restoreTarget, faults.attempts, false);
          if !done {
            return false;
          }
          ownedWindows := None;
          ClearJournal(faults.clears);
      }
      return true;
    }

    /** Disabling through `update_sysproxy`. */
    method DisableSysproxy(port: nat, bypass: string, faults: Faults) returns (ok: bool)
      requires Valid() && faults.Plausible(DisableWrites())
      modifies this
      ensures Valid()
      ensures ok ==> cur == Some(DisabledTarget(port, bypass)) && oldWindows == ownedWindows == None
      ensures !ok ==> Mem() == old(Mem()) && journal == old(journal)
      // somebody else's proxy is left alone and forgotten about
      ensures faults.readable && SystemProxy(old(proxy)).Some?
              && !(old(cur).Some? && Matches(SystemProxy(old(proxy)).value, old(cur).value)) ==>
                ok && proxy == old(proxy) && oldWindows == ownedWindows == None
      // the app's own proxy is merged back value by value
      ensures faults.readable && AppOwns(old(Now())) ==>
                && ok == (faults.restores && faults.notifies)
                && proxy == (if faults.restores then MergedBack(old(Now())) else old(proxy))
                && (ok ==> Mem() == Memory(cur, None, None, None))
                && (ok && faults.clears ==> journal == None)
      // without an original the app only switches its own, untouched state off
      ensures faults.readable && old(cur).Some? && Shows(old(proxy), old(cur).value)
              && old(oldWindows).None? && old(ownedWindows).Some? ==>
                && (proxy == old(proxy) || (old(proxy) == old(ownedWindows).value && SystemProxy(proxy).Some?
                    && !SystemProxy(proxy).value.enable))
                && (ok ==> oldWindows == ownedWindows == None)
      ensures !faults.readable || SystemProxy(old(proxy)).None? ==> !ok && proxy == old(proxy)
    {
      hide CrashSafe, Prepared, RecordedOwned, SystemProxy, LoadRecovery;
      var target := DisabledTarget(port, bypass);
      var read := if faults.readable then SystemProxy(proxy) else None;
      if read.None? {
        return false;
      }
      var before := read.value;
      if !(cur.Some? && Matches(before, cur.value)) {
        oldWindows := None;
        ownedWindows := None;
        ClearJournal(faults.clears);
        oldProxy := None;
        cur := Some(target);
        return true;
      }
      ok := GiveBack(before, faults);
      if ok {
        cur := Some(target);
      }
    }

    /** `heal_sysproxy`: applies the proxy again if it is switched on and what is in place is readable but different. */
    method HealSysproxy(enable: bool, port: nat, bypass: string, readback: bool, faults: Faults) returns (healed: bool)
      requires Valid() && faults.Plausible(AppTarget(port, bypass))
      requires faults.ready ==> 0 < port < 0x1_0000
      modifies this
      ensures Valid()
      ensures !enable || !readback || SystemProxy(old(proxy)).None? || Shows(old(proxy), AppTarget(port, bypass)) ==>
                !healed && Now() == old(Now()) && history == old(history)
      ensures healed ==> EnableSucceeded(old(Now()), Now(), AppTarget(port, bypass),
                           !(faults.readable && ShowsEnabled(old(cur), old(proxy))),
                                     EnableOriginal(old(Disk(proxy, journal)), old(Mem()), faults.readable),
                                     faults.readable, faults.records)
      ensures !healed ==> Mem() == old(Mem())
      // anything readable but different is healed exactly if the enable succeeds
      ensures enable && readback && SystemProxy(old(proxy)).Some? && !Shows(old(proxy), AppTarget(port, bypass)) ==>
                && healed == (faults.ready && faults.captures && faults.prepares && faults.recaptures
                              && AfterAttempts(old(proxy), AppTarget(port, bypass), faults.attempts, true).1)
                && (faults.ready && faults.captures && faults.prepares && faults.recaptures
                    && Convincing(old(proxy), AppTarget(port, bypass), faults.attempts) ==>
                      healed)
                && (healed && AllReadable(faults.attempts) ==> Shows(proxy, AppTarget(port, bypass)))
    {
      hide AfterAttempts, Convincing, SystemProxy, EnableSucceeded;
      var actual := if readback then SystemProxy(proxy) else None;
      if !enable || actual.None? || Matches(actual.value, AppTarget(port, bypass)) {
        return false;
      }
      healed := EnableSysproxy(port, bypass, faults);
    }

    /** One guard cycle that found the guard still enabled: write the target again and refresh what is owned. */
    method GuardCycle(port: nat, bypass: string, faults: Faults) returns (done: bool)
      requires Valid() && faults.Plausible(AppTarget(port, bypass)) && 0 < port < 0x1_0000
      modifies this
      ensures Valid()
      ensures proxy == old(proxy) || Shows(proxy, AppTarget(port, bypass))
      ensures (proxy, done) == AfterAttempts(old(proxy), AppTarget(port, bypass), faults.attempts, true)
      ensures Convincing(old(proxy), AppTarget(port, bypass), faults.attempts) ==> done
      ensures done ==> SomeReported(faults.attempts)
      ensures done && SystemProxy(old(proxy)).Some? && AllReadable(faults.attempts) ==>
                Shows(proxy, AppTarget(port, bypass))
      ensures cur == old(cur) && oldProxy == old(oldProxy) && oldWindows == old(oldWindows)
      ensures ownedWindows == if done && old(ownedWindows).Some? && faults.recaptures
                              then Some(Refreshed(old(ownedWindows).value, proxy)) else old(ownedWindows)
      ensures journal == if done && ownedWindows.Some? && faults.recaptures && faults.records && old(journal).Some?
                         then Some(RecordedOwned(old(journal).value, ownedWindows.value, AppTarget(port, bypass)))
                         else old(journal)
    {
      hide RecordedOwned, SystemProxy, LoadRecovery, AfterAttempts, Shows;
      var target := AppTarget(port, bypass);
      AppTargetSensible(port, bypass);
      AttemptsSucceed(proxy, target, faults.attempts);
      hide Convincing, SomeReported, AllReadable, Sensible;
      done := SetWithRetry(target, faults.attempts, true);
      if done && ownedWindows.Some? && faults.recaptures {
        ownedWindows := Some(Refreshed(ownedWindows.value, proxy));
        if faults.records && journal.Some? {
          Commit(proxy, Some(RecordedOwned(journal.value, ownedWindows.value, target)));
        }
      }
    }

    ghost function ResetWrites(): Sysproxy
      reads this
    {
      var target := ResetTarget(oldProxy, cur);
      if oldWindows.None? && ownedWindows.None? && target.Some? then target.value else Sysproxy(false, "", 0, "")
    }

    /** `reset_sysproxy` on exit: forget everything, restoring like a disable if the proxy is still the app's. */
    method ResetSysproxy(faults: Faults) returns (ok: bool)
      requires Valid() && faults.Plausible(ResetWrites())
      modifies this
      ensures Valid() && Mem() == Memory(None, None, None, None)
      ensures faults.readable && AppOwns(old(Now())) ==>
                && ok == (faults.restores && faults.notifies)
                && proxy == (if faults.restores then MergedBack(old(Now())) else old(proxy))
                && (ok && faults.clears ==> journal == None)
      ensures old(oldWindows).Some? && !(faults.readable && old(cur).Some? && Shows(old(proxy), old(cur).value)) ==>
                ok && proxy == old(proxy)
      // what was recorded as the app's is switched off if nothing has changed since
      ensures old(oldWindows).None? && old(ownedWindows).Some? ==>
                var own := faults.readable && faults.captures && old(cur).Some? && Shows(old(proxy), old(cur).value)
                           && old(ownedWindows) == Some(old(proxy));
                var attempt := faults.attempts[0];
                && ok == (!own || attempt.wininetOk)
                && proxy == (if own && attempt.wininetWrites.Some? then attempt.wininetWrites.value else old(proxy))
                && (own && attempt.wininetWrites.Some? ==> Shows(proxy, old(cur).value.(enable := false)))
      // without snapshots the saved proxy, or the app's own switched off, is all there is to set
      ensures old(oldWindows).None? && old(ownedWindows).None? ==>
                var target := ResetTarget(old(oldProxy), old(cur));
                var attempt := faults.attempts[0];
                && ok == (target.None? || attempt.wininetOk)
                && proxy == (if target.Some? && attempt.wininetWrites.Some? then attempt.wininetWrites.value
                             else old(proxy))
                && (target.Some? && attempt.wininetWrites.Some? ==> Shows(proxy, target.value))
      ensures ok && faults.clears ==> journal == None
    {
      hide SystemProxy, LoadRecovery, RestoredIfUnchanged, ResetTarget, Matches, JournalTarget, CrashSafe;
      var original, owned, current, saved := oldWindows, ownedWindows, cur, oldProxy;
      oldWindows, ownedWindows, cur, oldProxy := None, None, None, None;
      var actual := if faults.readable then SystemProxy(proxy) else None;
      if current.Some? {
        DisabledAlike(faults.attempts, current.value.(enable := false));
      }
      var parsedOwned := current.Some? && actual.Some? && Matches(actual.value, current.value);
      if original.Some? && parsedOwned && owned.Some? {
        if !faults.restores {
          return false;
        }
        RestoreIsThreeWay(original.value, owned.value, proxy, ProxyEnable);
        Commit(RestoredIfUnchanged(original.value, owned.value, proxy), journal);
        if !faults.notifies {
          return false;
        }
        ClearJournal(faults.clears);
        return true;
      }
      var target := ResetTarget(saved, current);
      if original.Some? {
        target := if parsedOwned then Some(current.value.(enable := false)) else None;
      } else if owned.Some? {
        target := if parsedOwned && faults.captures && proxy == owned.value then Some(current.value.(enable := false))
                  else None;
      }
      ok := SetOnExit(target, faults.attempts[0], faults.clears);
    }

    /** The last write of the app, if there is anything to set. */
    method SetOnExit(target: Option<Sysproxy>, attempt: Attempt, clears: bool) returns (ok: bool)
      requires Valid() && (target.Some? ==> attempt.Plausible(target.value))
      modifies this`proxy, this`journal, this`history
      ensures Valid()
      ensures ok == (target.None? || attempt.wininetOk)
      ensures target.None? ==> proxy == old(proxy)
      ensures proxy == if target.Some? && attempt.wininetWrites.Some? then attempt.wininetWrites.value else old(proxy)
      ensures target.Some? && attempt.wininetWrites.Some? ==> Shows(proxy, target.value)
      ensures ok && clears ==> journal == None
    {
      if target.Some? {
        var done := SetOnce(target.value, attempt);
        if !done {
          return false;
        }
      }
      ClearJournal(clears);
      return true;
    }

    /** A single WinINet write without readback. */
    method SetOnce(target: Sysproxy, attempt: Attempt) returns (ok: bool)
      requires Valid() && attempt.Plausible(target)
      modifies this`proxy, this`journal, this`history
      ensures Valid() && journal == old(journal)
      ensures proxy == old(proxy) || Shows(proxy, target)
      ensures ok == attempt.wininetOk
      ensures proxy == if attempt.wininetWrites.Some? then attempt.wininetWrites.value else old(proxy)
    {
      if attempt.wininetWrites.Some? {
        Commit(attempt.wininetWrites.value, journal);
      }
      return attempt.wininetOk;
    }
  }

  /**
   Where a first enable does lose the original: every write commits and then reports failure, the rollback fails too,
   and the journal is cleared all the same. The app's proxy stays, and nothing remembers what was there before.
   */
  method FirstEnableCanLoseTheOriginal() returns (app: Sysopt, original: Snapshot)
    ensures fresh(app) && app.Valid() && app.history[0] == Disk(original, None)
    ensures app.Mem() == Memory(None, None, None, None) && app.journal.None?
    ensures Shows(app.proxy, AppTarget(7897, "")) && app.proxy != original
    ensures !CrashSafe(Disk(app.proxy, app.journal), original)
  {
    hide CrashSafe, AfterAttempts, Shows, EnableSucceeded, SafeOrGivenUp, SystemProxy, ServerText, Sensible;
    original := Snapshot(true, Some(Dword(0)), None, None, None, None, None, None);
    app := new Sysopt(original, None);
    var reported := Attempt(false, None, true, false, true);
    var faults := Faults(true, true, true, true, [reported, reported, reported], true, true, false, true, true, true,
        true);
    ReportedFailure(original, AppTarget(7897, ""), reported);
    AppTargetSensible(7897, "");
    FallbackShowsTarget(original, AppTarget(7897, ""));
    var target := AppTarget(7897, "");
    assert RegistryProxySet(original, target).proxyEnable == Some(Dword(1));
    var ok := app.FirstEnable(7897, "", faults);
    assert app.proxy == RegistryProxySet(original, target);
  }

  /** Writes that commit but report failure leave the target in place, and are not found good. */
  lemma ReportedFailure(p: Snapshot, target: Sysproxy, a: Attempt)
    requires a == Attempt(false, None, true, false, true)
    ensures AfterAttempts(p, target, [a, a, a], true) == (RegistryProxySet(p, target), false)
  {
    var shown := RegistryProxySet(p, target);
    assert RegistryProxySet(shown, target) == shown;
    assert [a, a, a][1..] == [a, a] && [a, a][1..] == [a] && [a][1..] == [];
    assert AfterAttempts(shown, target, [a], true) == (shown, false);
    assert AfterAttempts(shown, target, [a, a], true) == (shown, false);
  }
}
