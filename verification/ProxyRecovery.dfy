/** Restoring a proxy snapshot, the crash journal, and recovery from it. */
module ProxyRecovery {
  import opened Wrappers
  import opened ProxyServer
  import opened ProxyRegistry

  // ----- restoring

  /** What a restore of `original` makes of one value, given what the app had written. */
  function Merged(original: Option<RawValue>, owned: Option<RawValue>, current: Option<RawValue>): Option<RawValue> {
    if current == owned then original else current
  }

  /**
   `restore_if_unchanged`: one transaction, followed by the removal of a Connections key that the
   original state did not have. The transaction itself creates a missing key.
   */
  function RestoredIfUnchanged(original: Snapshot, owned: Snapshot, current: Snapshot): Snapshot {
    var dropKey := !original.connectionsExisted
                   && current.defaultConnection == owned.defaultConnection
                   && current.savedLegacy == owned.savedLegacy;
    Snapshot(
      !dropKey,
      Merged(original.proxyEnable, owned.proxyEnable, current.proxyEnable),
      Merged(original.proxyServer, owned.proxyServer, current.proxyServer),
      Merged(original.proxyOverride, owned.proxyOverride, current.proxyOverride),
      Merged(original.autoConfigUrl, owned.autoConfigUrl, current.autoConfigUrl),
      Merged(original.autoDetect, owned.autoDetect, current.autoDetect),
      Merged(original.defaultConnection, owned.defaultConnection, current.defaultConnection),
      Merged(original.savedLegacy, owned.savedLegacy, current.savedLegacy))
  }

  /** Each value goes back to the original exactly if nobody changed it since the app took over. */
  lemma RestoreIsThreeWay(original: Snapshot, owned: Snapshot, current: Snapshot, field: Field)
    requires original.WellFormed() && current.WellFormed()
    ensures var restored := RestoredIfUnchanged(original, owned, current);
      && restored.Get(field) == (if current.Get(field) == owned.Get(field) then original.Get(field)
          else current.Get(field))
      && restored.WellFormed()
  {
  }

  /** If nothing was changed by others, the whole original state is back, Connections key included. */
  lemma RestoreUndoes(original: Snapshot, owned: Snapshot)
    requires original.WellFormed()
    ensures RestoredIfUnchanged(original, owned, owned) == original
  {
  }

  // ----- the journal

  /** The recovery key with its two snapshot subkeys, possibly holding leftovers of older sessions. */
  datatype Journal = Journal(values: Values, original: Values, owned: Option<Values>)

  const PHASE_PREPARED: nat := 1
  const PHASE_OWNED: nat := 2

  function WithTarget(values: Values, target: Sysproxy): Values {
    values
      ["TargetEnable" := Dword(if target.enable then 1 else 0)]
      ["TargetHost" := Text(target.host)]
      ["TargetPort" := Dword(target.port)]
      ["TargetBypass" := Text(target.bypass)]
  }

  /** `prepare_recovery`: keys are created if missing, existing contents stay. */
  function Prepared(journal: Option<Journal>, original: Snapshot, target: Sysproxy): Journal {
    var base := if journal.Some? then journal.value else Journal(map[], map[], None);
    Journal(WithTarget(base.values["Phase" := Dword(PHASE_PREPARED)], target),
            Written(base.original, original),
            base.owned)
  }

  /** `record_owned_recovery` needs an existing journal. */
  function RecordedOwned(journal: Journal, owned: Snapshot, target: Sysproxy): Journal {
    Journal(WithTarget(journal.values, target)["Phase" := Dword(PHASE_OWNED)],
            journal.original,
            Some(Written(if journal.owned.Some? then journal.owned.value else map[], owned)))
  }

  datatype Recovery = Recovery(original: Snapshot, owned: Option<Snapshot>, target: Sysproxy)

  datatype Load = NoJournal | Corrupt | Loaded(recovery: Recovery)

  function LoadRecovery(journal: Option<Journal>): Load {
    if journal.None? then NoJournal
    else
      var j := journal.value;
      var phase := ReadDword(j.values, "Phase");
      if phase.Failed? || (phase.value != PHASE_PREPARED && phase.value != PHASE_OWNED) then Corrupt
      else if phase.value == PHASE_OWNED && (j.owned.None? || ReadSnapshot(j.owned.value).Failed?) then Corrupt
      else
        var port := ReadDword(j.values, "TargetPort");
        var enable := ReadDword(j.values, "TargetEnable");
        var host := ReadText(j.values, "TargetHost");
        var bypass := ReadText(j.values, "TargetBypass");
        var original := ReadSnapshot(j.original);
        if port.Failed? || port.value == 0 || port.value >= 0x1_0000 then Corrupt
        else if enable.Failed? || enable.value != 1 then Corrupt
        else if original.Failed? || host.Failed? || bypass.Failed? then Corrupt
        else
          Loaded(Recovery(
            original.value,
            if phase.value == PHASE_OWNED then Some(ReadSnapshot(j.owned.value).value) else None,
            Sysproxy(true, host.value, port.value, bypass.value)))
  }

  predicate JournalTarget(target: Sysproxy) { target.enable && 0 < target.port < 0x1_0000 }

  lemma TargetReadsBack(values: Values, target: Sysproxy)
    ensures var w := WithTarget(values, target);
      && ReadDword(w, "TargetEnable") == Ok(if target.enable then 1 else 0)
      && ReadText(w, "TargetHost") == Ok(target.host)
      && ReadDword(w, "TargetPort") == Ok(target.port)
      && ReadText(w, "TargetBypass") == Ok(target.bypass)
      && ("Phase" in values ==> ReadDword(w, "Phase") == ReadDword(values, "Phase"))
  {
    assert "TargetEnable" != "TargetHost" && "TargetEnable" != "TargetPort" && "TargetEnable" != "TargetBypass";
    assert "TargetHost"[6] != "TargetPort"[6] && "TargetHost" != "TargetBypass" && "TargetPort" != "TargetBypass";
    assert "Phase" != "TargetEnable" && "Phase" != "TargetHost" && "Phase" != "TargetPort" && "Phase" != "TargetBypass";
  }

  /** Whatever an older session left in the journal, a prepared one is read back as written. */
  lemma PreparedReadsBack(journal: Option<Journal>, original: Snapshot, target: Sysproxy)
    requires JournalTarget(target)
    ensures LoadRecovery(Some(Prepared(journal, original, target))) == Loaded(Recovery(original, None, target))
  {
    hide Written, WithTarget, ReadSnapshot;
    var base := if journal.Some? then journal.value else Journal(map[], map[], None);
    TargetReadsBack(base.values["Phase" := Dword(PHASE_PREPARED)], target);
    ReadInvertsWritten(base.original, original);
  }

  /** Recording ownership keeps the original and replaces target and owned state. */
  lemma OwnedReadsBack(journal: Journal, owned: Snapshot, target: Sysproxy)
    requires JournalTarget(target)
    ensures ReadSnapshot(journal.original).Ok? ==>
              LoadRecovery(Some(RecordedOwned(journal, owned, target)))
              == Loaded(Recovery(ReadSnapshot(journal.original).value, Some(owned), target))
    ensures RecordedOwned(journal, owned, target).original == journal.original
  {
    hide Written, ReadSnapshot;
    TargetReadsBack(journal.values, target);
    ReadInvertsWritten(if journal.owned.Some? then journal.owned.value else map[], owned);
    assert "Phase" != "TargetEnable" && "Phase" != "TargetHost" && "Phase" != "TargetPort" && "Phase" != "TargetBypass";
  }

  lemma PreparedOriginal(journal: Option<Journal>, original: Snapshot, target: Sysproxy)
    ensures ReadSnapshot(Prepared(journal, original, target).original) == Ok(original)
  {
    ReadInvertsWritten(if journal.Some? then journal.value.original else map[], original);
  }

  // ----- recovery

  /** What survives a crash: the registry values and the journal. */
  datatype Disk = Disk(proxy: Snapshot, journal: Option<Journal>)

  datatype Outcome = Nothing | Handled | Refused

  /** Whether the registry currently shows the journal's target. */
  predicate TargetIsCurrent(proxy: Snapshot, target: Sysproxy) {
    SystemProxy(proxy).Some? && MatchesExactly(SystemProxy(proxy).value, target)
  }

  /** `recover_pending` when every registry operation succeeds. */
  function Recover(d: Disk): (Disk, Outcome) {
    match LoadRecovery(d.journal)
    case NoJournal => (d, Nothing)
    case Corrupt => (d, Refused)
    case Loaded(r) =>
      if d.proxy == r.original then (Disk(d.proxy, None), Handled)
      else match r.owned
        case Some(owned) =>
          if TargetIsCurrent(d.proxy, r.target)
          then (Disk(RestoredIfUnchanged(r.original, owned, d.proxy), None), Handled)
          else (Disk(d.proxy, None), Handled)
        case None =>
          if TargetIsCurrent(d.proxy, r.target)
          then (Disk(RestoredIfUnchanged(r.original, d.proxy, d.proxy), None), Handled)
          else (d, Refused)
  }

  /** A crash in this state loses nothing: recovery gives back `original` and leaves no journal. */
  predicate CrashSafe(d: Disk, original: Snapshot) {
    Recover(d).0 == Disk(original, None) && Recover(d).1 != Refused
  }

  /** Without a journal nothing is given back: only the original itself is safe. */
  lemma NoJournalIsSafe(proxy: Snapshot, original: Snapshot)
    ensures CrashSafe(Disk(proxy, None), original) <==> proxy == original
  {
  }

  lemma ShownIsCurrent(proxy: Snapshot, target: Sysproxy)
    requires target.enable
    ensures Shows(proxy, target) <==> TargetIsCurrent(proxy, target)
  {
  }

  /**
   Exactly when a prepared journal can be recovered: the registry is still the original or shows the
   journal's target. A journal prepared for another target than the one in place is refused.
   */
  lemma PreparedIsSafe(journal: Option<Journal>, original: Snapshot, target: Sysproxy, proxy: Snapshot)
    requires JournalTarget(target) && original.WellFormed()
    ensures CrashSafe(Disk(proxy, Some(Prepared(journal, original, target))), original)
            <==> proxy == original || Shows(proxy, target)
    ensures Recover(Disk(proxy, Some(Prepared(journal, original, target)))).1 == Refused
            <==> proxy != original && !Shows(proxy, target)
  {
    PreparedReadsBack(journal, original, target);
    ShownIsCurrent(proxy, target);
    RestoreUndoes(original, proxy);
    hide Prepared, LoadRecovery, SystemProxy;
  }

  /**
   Exactly when a journal prepared for a session is safe for some original: it is that session's, and the registry
   is it or shows the session's target.
   */
  lemma PreparedForAnother(journal: Option<Journal>, older: Snapshot, target: Sysproxy, proxy: Snapshot,
      original: Snapshot)
    requires JournalTarget(target) && older.WellFormed()
    ensures CrashSafe(Disk(proxy, Some(Prepared(journal, older, target))), original)
            <==> older == original && (proxy == older || Shows(proxy, target))
  {
    PreparedReadsBack(journal, older, target);
    ShownIsCurrent(proxy, target);
    RestoreUndoes(older, proxy);
    hide Prepared, LoadRecovery, SystemProxy, Shows;
  }

  /** What a recorded journal makes of a registry. */
  function Recovered(older: Snapshot, owned: Snapshot, target: Sysproxy, proxy: Snapshot): Snapshot {
    if proxy != older && Shows(proxy, target) then RestoredIfUnchanged(older, owned, proxy) else proxy
  }

  /** Exactly when a journal with recorded ownership is safe for some original: recovery makes the registry that. */
  lemma OwnedForAnother(
      journal: Option<Journal>, older: Snapshot, target: Sysproxy, owned: Snapshot, proxy: Snapshot, original: Snapshot)
    requires JournalTarget(target) && older.WellFormed()
    ensures CrashSafe(Disk(proxy, Some(RecordedOwned(Prepared(journal, older, target), owned, target))), original)
            <==> Recovered(older, owned, target, proxy) == original
  {
    PreparedOriginal(journal, older, target);
    OwnedReadsBack(Prepared(journal, older, target), owned, target);
    ShownIsCurrent(proxy, target);
    hide Prepared, RecordedOwned, LoadRecovery, SystemProxy, Shows, RestoredIfUnchanged;
  }

  /** Once ownership is recorded, the state that was recorded is safe, whatever the target. */
  lemma OwnedIsSafe(journal: Option<Journal>, original: Snapshot, target: Sysproxy, owned: Snapshot)
    requires JournalTarget(target) && original.WellFormed()
    requires owned == original || Shows(owned, target)
    ensures CrashSafe(Disk(owned, Some(RecordedOwned(Prepared(journal, original, target), owned, target))), original)
  {
    PreparedOriginal(journal, original, target);
    OwnedReadsBack(Prepared(journal, original, target), owned, target);
    ShownIsCurrent(owned, target);
    RestoreUndoes(original, owned);
    hide Prepared, RecordedOwned, LoadRecovery, SystemProxy;
  }

  /**
   A re-enable for another target is not crash safe: after its journal is written and before the proxy is,
   recovery refuses and leaves both in place.
   */
  lemma ReenableIsRefused(original: Snapshot, current: Snapshot, first: Sysproxy, second: Sysproxy)
    requires original.WellFormed() && JournalTarget(first) && JournalTarget(second)
    requires Shows(current, first) && !Shows(current, second) && current != original
    ensures var journal := RecordedOwned(Prepared(None, original, first), current, first);
      && LoadRecovery(Some(journal)) == Loaded(Recovery(original, Some(current), first))
      && Recover(Disk(current, Some(Prepared(Some(journal), original, second)))) ==
         (Disk(current, Some(Prepared(Some(journal), original, second))), Refused)
  {
    var journal := RecordedOwned(Prepared(None, original, first), current, first);
    PreparedOriginal(None, original, first);
    OwnedReadsBack(Prepared(None, original, first), current, first);
    PreparedIsSafe(Some(journal), original, second, current);
    hide LoadRecovery, Prepared, RecordedOwned, Shows;
  }

  /** There are such targets: it takes no more than another port. */
  lemma AnotherPortIsEnough() returns (original: Snapshot, current: Snapshot, first: Sysproxy, second: Sysproxy)
    ensures original.WellFormed() && JournalTarget(first) && second == first.(port := first.port + 1)
        && JournalTarget(second)
    ensures Shows(current, first) && !Shows(current, second) && current != original
  {
    original := Snapshot(true, Some(Dword(0)), None, None, None, None, None, None);
    first := Sysproxy(true, "127.0.0.1", 7897, "");
    second := Sysproxy(true, "127.0.0.1", 7898, "");
    current := RegistryProxySet(original, first);
    FallbackShowsTarget(original, first);
  }
}
