/**
 Whole sessions of proxy ownership. What the app should give back is computed from the history of
 events alone; the lemmas show that its memory and its journal hold exactly that.
 */
module ProxyOwnership {
  import opened Wrappers
  import opened ProxyServer
  import opened ProxyRegistry
  import opened ProxyRecovery
  import opened Sysopt

  datatype Event =
    | First(target: Sysproxy, readable: bool, recorded: bool)    // `init_sysproxy` of a fresh app
    | Enable(target: Sysproxy, readable: bool, recorded: bool)   // a successful `update_sysproxy`, or self-healing
    | FailedEnable(faults: Faults)                               // memory untouched, whatever became of the registry
    | Guard(target: Sysproxy, refreshed: bool, recorded: bool)
    | Foreign                                                    // the registry changed otherwise, or a disable failed
    | Release                                                    // a disable or reset that completed

  /** What could not be read counts as somebody else's. */
  ghost predicate Took(w: World, target: Sysproxy, readable: bool, first: bool) {
    !readable || if first then !Shows(w.disk.proxy, target) else !ShowsEnabled(w.memory.cur, w.disk.proxy)
  }

  /** One event, as the contracts of the operations describe it. */
  ghost predicate Step(w: World, e: Event, w': World) {
    && w.disk.proxy.WellFormed() && w'.disk.proxy.WellFormed()
    && match e
       case First(target, readable, recorded) =>
         && target.enable && w.memory == Memory(None, None, None, None)
         && EnableSucceeded(w, w', target, Took(w, target, readable, true), w.disk.proxy, readable, recorded)
       case Enable(target, readable, recorded) =>
         && target.enable
         && EnableSucceeded(w, w', target, Took(w, target, readable, false),
              if !Took(w, target, readable, false) && w.memory.oldWindows.Some? then w.memory.oldWindows.value
                  else w.disk.proxy,
              readable, recorded)
       case FailedEnable(faults) =>
         && w'.memory == w.memory
         && (ShowsEnabled(w.memory.cur, w.disk.proxy) && w'.disk.journal != w.disk.journal ==>
               exists prepared: Option<Journal> ::
                 w'.disk.journal == Rearmed(prepared, w.memory.oldWindows, w.disk.proxy, w.memory.cur.value, faults))
       case Guard(target, refreshed, recorded) =>
         && target.enable && JournalTarget(target)
         && w'.memory == w.memory.(ownedWindows := w'.memory.ownedWindows)
         && w'.memory.ownedWindows ==
              (if refreshed && w.memory.ownedWindows.Some?
               then Some(Refreshed(w.memory.ownedWindows.value, w'.disk.proxy)) else w.memory.ownedWindows)
         && w'.disk.journal ==
              (if refreshed && recorded && w.memory.ownedWindows.Some? && w.disk.journal.Some?
               then Some(RecordedOwned(w.disk.journal.value, w'.memory.ownedWindows.value, target)) else w.disk.journal)
       case Foreign => w'.memory == w.memory && w'.disk.journal == w.disk.journal
       case Release =>
         && (w'.memory.cur.None? || !w'.memory.cur.value.enable)
         && w'.memory.oldWindows.None? && w'.memory.ownedWindows.None?
  }

  ghost predicate Session(trace: seq<World>, events: seq<Event>) {
    && |trace| == |events| + 1
    && trace[0].disk.proxy.WellFormed() && trace[0].memory == Memory(None, None, None, None)
    && forall i :: 0 <= i < |events| ==> Step(trace[i], events[i], trace[i + 1])
  }

  // ----- what history says, without looking at the app's memory

  /** The target the app is enabled with after `n` events. */
  ghost function Target(events: seq<Event>, n: nat): Option<Sysproxy>
    requires n <= |events|
  {
    if n == 0 then None
    else match events[n - 1]
      case First(target, _, _) => Some(target)
      case Enable(target, _, _) => Some(target)
      case Release => None
      case _ => Target(events, n - 1)
  }

  /** The registry just before the app last replaced a state that did not show its own target. */
  ghost function Takeover(trace: seq<World>, events: seq<Event>, n: nat): Option<Snapshot>
    requires |trace| == |events| + 1 && n <= |events|
  {
    if n == 0 then None
    else
      var before := trace[n - 1].disk.proxy;
      match events[n - 1]
      case First(target, readable, _) => if readable && Shows(before, target) then None else Some(before)
      case Enable(_, readable, _) =>
        if readable && ShowsEnabled(Target(events, n - 1), before) then Takeover(trace, events, n - 1) else Some(before)
      case Release => None
      case _ => Takeover(trace, events, n - 1)
  }

  /** The registry right after the last enable, with the values that WinINet writes as of the last guard cycle. */
  ghost function OwnedState(trace: seq<World>, events: seq<Event>, n: nat): Option<Snapshot>
    requires |trace| == |events| + 1 && n <= |events|
  {
    if n == 0 then None
    else
      var after := trace[n].disk.proxy;
      match events[n - 1]
      case First(_, _, _) => Some(after)
      case Enable(_, _, _) => Some(after)
      case Guard(_, refreshed, _) =>
        var owned := OwnedState(trace, events, n - 1);
        if refreshed && owned.Some? then Some(Refreshed(owned.value, after)) else owned
      case Release => None
      case _ => OwnedState(trace, events, n - 1)
  }

  /** The app's memory is what history says it should be, at any time. */
  lemma {:induction false} MemoryMirrorsHistory(trace: seq<World>, events: seq<Event>, n: nat)
    requires Session(trace, events) && n <= |events|
    ensures var w := trace[n];
      && w.disk.proxy.WellFormed()
      && w.memory.oldWindows == Takeover(trace, events, n)
      && w.memory.ownedWindows == OwnedState(trace, events, n)
      && (Target(events, n).Some? ==> w.memory.cur == Target(events, n) && w.memory.cur.value.enable)
      && (Target(events, n).None? ==> w.memory.cur.None? || !w.memory.cur.value.enable)
      && (w.memory.oldWindows.Some? ==> w.memory.ownedWindows.Some? && w.memory.oldWindows.value.WellFormed())
      && (Target(events, n).Some? <==> w.memory.ownedWindows.Some?)
  {
    hide Shows, Rearmed, RecordedOwned, Prepared, SystemProxy;
    if n > 0 {
      MemoryMirrorsHistory(trace, events, n - 1);
      assert Step(trace[n - 1], events[n - 1], trace[n]);
    }
  }

  /**
   After any session, a disable that finds the app's target in place puts every value back to what it
   was before the app's last takeover, unless somebody changed it since the app last recorded what it
   owns; then their value stays.
   */
  lemma FinalDisableGivesBack(trace: seq<World>, events: seq<Event>, field: Field)
    requires Session(trace, events)
    requires Target(events, |events|).Some? && Shows(trace[|events|].disk.proxy, Target(events, |events|).value)
    requires Takeover(trace, events, |events|).Some?
    ensures var w := trace[|events|]; var owned := OwnedState(trace, events, |events|);
      && AppOwns(w) && owned.Some?
      && MergedBack(w).Get(field) ==
           (if w.disk.proxy.Get(field) == owned.value.Get(field)
            then Takeover(trace, events, |events|).value.Get(field)
            else w.disk.proxy.Get(field))
      && (w.disk.proxy == owned.value ==> MergedBack(w) == Takeover(trace, events, |events|).value)
  {
    hide Shows;
    var w := trace[|events|];
    MemoryMirrorsHistory(trace, events, |events|);
    RestoreIsThreeWay(w.memory.oldWindows.value, w.memory.ownedWindows.value, w.disk.proxy, field);
    RestoreUndoes(w.memory.oldWindows.value, w.memory.ownedWindows.value);
  }

  /** The final disable itself, field by field, whatever session came before it. */
  method DisableAfterSession(
      app: Sysopt, ghost trace: seq<World>, ghost events: seq<Event>, port: nat, bypass: string, faults: Faults)
    returns (ok: bool)
    requires app.Valid() && Session(trace, events) && trace[|events|] == app.Now()
    requires Target(events, |events|).Some? && Shows(app.proxy, Target(events, |events|).value)
    requires Takeover(trace, events, |events|).Some?
    requires faults.Plausible(app.DisableWrites()) && faults.readable
    modifies app
    ensures app.Valid() && ok == (faults.restores && faults.notifies)
    ensures !faults.restores ==> app.proxy == old(app.proxy)
    ensures faults.restores ==>
              var owned := OwnedState(trace, events, |events|); var before := Takeover(trace, events, |events|).value;
              && owned.Some?
              && (forall field: Field ::
                    app.proxy.Get(field) == (if old(app.proxy).Get(field) == owned.value.Get(field)
                                             then before.Get(field) else old(app.proxy).Get(field)))
              && (old(app.proxy) == owned.value ==> app.proxy == before)
    ensures ok ==> app.Mem() == Memory(Some(DisabledTarget(port, bypass)), None, None, None)
    ensures ok && faults.clears ==> app.journal.None?
    ensures !ok ==> app.Mem() == old(app.Mem()) && app.journal == old(app.journal)
  {
    FinalDisableGivesBack(trace, events, ProxyEnable);
    forall field: Field
      ensures MergedBack(app.Now()).Get(field) ==
                (if app.proxy.Get(field) == OwnedState(trace, events, |events|).value.Get(field)
                 then Takeover(trace, events, |events|).value.Get(field) else app.proxy.Get(field))
      ensures app.proxy == OwnedState(trace, events, |events|).value ==>
                MergedBack(app.Now()) == Takeover(trace, events, |events|).value
    {
      FinalDisableGivesBack(trace, events, field);
    }
    hide Shows, SystemProxy, MergedBack, Takeover, OwnedState, Target, Session;
    ok := app.DisableSysproxy(port, bypass, faults);
  }

  /** A takeover snapshot is never remembered without an ownership snapshot. */
  lemma OriginalNeverWithoutOwned(trace: seq<World>, events: seq<Event>, n: nat)
    requires Session(trace, events) && n <= |events|
    ensures trace[n].memory.oldWindows.Some? ==> trace[n].memory.ownedWindows.Some?
  {
    MemoryMirrorsHistory(trace, events, n);
  }

  // ----- crash recovery against a clean disable

  /** The journal tells the same story as the memory. */
  ghost predicate InSync(w: World) {
    && w.memory.cur.Some? && w.memory.oldWindows.Some? && w.memory.ownedWindows.Some?
    && LoadRecovery(w.disk.journal)
       == Loaded(Recovery(w.memory.oldWindows.value, w.memory.ownedWindows, w.memory.cur.value))
  }

  /** With journal and memory in step, recovering after a crash leaves what a clean disable would have left. */
  lemma CrashRecoversLikeDisable(w: World, field: Field)
    requires InSync(w) && AppOwns(w) && w.memory.cur.value.enable
    ensures Recover(w.disk).1 == Handled && Recover(w.disk).0.journal.None?
    ensures Recover(w.disk).0.proxy.Get(field) == MergedBack(w).Get(field)
    ensures w.disk.proxy != w.memory.oldWindows.value ==> Recover(w.disk).0.proxy == MergedBack(w)
  {
    ShownIsCurrent(w.disk.proxy, w.memory.cur.value);
    hide LoadRecovery, Shows, TargetIsCurrent;
  }

  lemma EnableSyncs(w: World, w': World, target: Sysproxy, original: Snapshot, took: bool, readable: bool)
    requires JournalTarget(target)
    requires EnableSucceeded(w, w', target, took, original, readable, true)
    requires w'.memory.oldWindows == Some(original)
    ensures InSync(w')
  {
    hide LoadRecovery, Shows, SystemProxy;
    PreparedOriginal(w.disk.journal, original, target);
    OwnedReadsBack(Prepared(w.disk.journal, original, target), w'.disk.proxy, target);
  }

  lemma LoadedOriginal(journal: Option<Journal>)
    requires LoadRecovery(journal).Loaded?
    ensures journal.Some? && ReadSnapshot(journal.value.original) == Ok(LoadRecovery(journal).recovery.original)
  {
  }

  lemma GuardKeepsSync(w: World, w': World, target: Sysproxy, refreshed: bool)
    requires InSync(w) && w.memory.cur == Some(target)
    requires Step(w, Guard(target, refreshed, true), w')
    ensures InSync(w')
  {
    hide LoadRecovery, Shows;
    LoadedOriginal(w.disk.journal);
    if refreshed {
      OwnedReadsBack(w.disk.journal.value, w'.memory.ownedWindows.value, target);
    }
  }

  /**
   A failed re-enable rearms the journal with the registry as it found it. That agrees with the memory
   if and only if nobody had touched the registry since ownership was recorded; otherwise crash
   recovery would treat the foreign values as the app's own.
   */
  lemma FailedEnableSyncsExactly(w: World, w': World, prepared: Option<Journal>, faults: Faults)
    requires w.memory.cur.Some? && JournalTarget(w.memory.cur.value)
    requires w.memory.oldWindows.Some? && w.memory.ownedWindows.Some?
    requires faults.rearmPrepares && faults.rearmRecords
    requires w'.memory == w.memory
    requires w'.disk.journal == Rearmed(prepared, w.memory.oldWindows, w.disk.proxy, w.memory.cur.value, faults)
    ensures InSync(w') <==> w.disk.proxy == w.memory.ownedWindows.value
  {
    hide LoadRecovery, Shows;
    PreparedOriginal(prepared, w.memory.oldWindows.value, w.memory.cur.value);
    OwnedReadsBack(Prepared(prepared, w.memory.oldWindows.value, w.memory.cur.value), w.disk.proxy, w.memory.cur.value);
  }

  /** An event that keeps the journal in step. */
  ghost predicate Careful(w: World, e: Event) {
    match e
    case First(target, _, recorded) => recorded && JournalTarget(target)
    case Enable(target, _, recorded) => recorded && JournalTarget(target)
    case FailedEnable(faults) =>
      && faults.rearmPrepares && faults.rearmRecords
      && w.memory.ownedWindows == Some(w.disk.proxy) && ShowsEnabled(w.memory.cur, w.disk.proxy)
    case Guard(target, _, recorded) => recorded && w.memory.cur == Some(target)
    case Foreign => true
    case Release => true
  }

  /** In a session of careful events the journal is in step whenever there is an original to go back to. */
  lemma {:induction false} CarefulSessionsStayInSync(trace: seq<World>, events: seq<Event>, n: nat)
    requires Session(trace, events) && n <= |events|
    requires forall i :: 0 <= i < n ==> Careful(trace[i], events[i])
    ensures Takeover(trace, events, n).Some? ==> InSync(trace[n]) && JournalTarget(trace[n].memory.cur.value)
  {
    MemoryMirrorsHistory(trace, events, n);
    if n > 0 {
      MemoryMirrorsHistory(trace, events, n - 1);
      CarefulSessionsStayInSync(trace, events, n - 1);
      var w, e, w' := trace[n - 1], events[n - 1], trace[n];
      hide LoadRecovery, Shows, Prepared, RecordedOwned, Rearmed, SystemProxy;
      assert Step(w, e, w') && Careful(w, e);
      if Takeover(trace, events, n).Some? {
        match e
        case First(target, readable, _) =>
          EnableSyncs(w, w', target, w'.memory.oldWindows.value, Took(w, target, readable, true), readable);
        case Enable(target, readable, _) =>
          EnableSyncs(w, w', target, w'.memory.oldWindows.value, Took(w, target, readable, false), readable);
        case FailedEnable(faults) =>
          if w'.disk.journal != w.disk.journal {
            var prepared: Option<Journal> :|
              w'.disk.journal == Rearmed(prepared, w.memory.oldWindows, w.disk.proxy, w.memory.cur.value, faults);
            FailedEnableSyncsExactly(w, w', prepared, faults);
          }
        case Guard(target, refreshed, _) => GuardKeepsSync(w, w', target, refreshed);
        case _ =>
      }
    }
  }

  // ----- the operations are events

  method FirstEvent(app: Sysopt, port: nat, bypass: string, faults: Faults) returns (ok: bool, ghost e: Event)
    requires app.Valid() && app.Mem() == Memory(None, None, None, None)
    requires faults.Plausible(AppTarget(port, bypass)) && (faults.ready ==> 0 < port < 0x1_0000)
    modifies app
    ensures app.Valid() && Step(old(app.Now()), e, app.Now())
    ensures e == if ok then First(AppTarget(port, bypass), faults.readable, faults.records) else FailedEnable(faults)
  {
    hide EnableSucceeded, Shows, Rearmed;
    ok := app.FirstEnable(port, bypass, faults);
    e := if ok then First(AppTarget(port, bypass), faults.readable, faults.records) else FailedEnable(faults);
  }

  method EnableEvent(app: Sysopt, port: nat, bypass: string, faults: Faults) returns (ok: bool, ghost e: Event)
    requires app.Valid()
    requires faults.Plausible(AppTarget(port, bypass)) && (faults.ready ==> 0 < port < 0x1_0000)
    modifies app
    ensures app.Valid() && Step(old(app.Now()), e, app.Now())
    ensures e == if ok then Enable(AppTarget(port, bypass), faults.readable, faults.records) else FailedEnable(faults)
  {
    hide EnableSucceeded, Shows, Rearmed;
    ok := app.EnableSysproxy(port, bypass, faults);
    e := if ok then Enable(AppTarget(port, bypass), faults.readable, faults.records) else FailedEnable(faults);
  }

  method GuardEvent(app: Sysopt, port: nat, bypass: string, faults: Faults) returns (done: bool, ghost e: Event)
    requires app.Valid() && faults.Plausible(AppTarget(port, bypass)) && 0 < port < 0x1_0000
    modifies app
    ensures app.Valid() && Step(old(app.Now()), e, app.Now())
    ensures e == Guard(AppTarget(port, bypass), done && faults.recaptures, faults.records)
  {
    hide RecordedOwned, Shows;
    done := app.GuardCycle(port, bypass, faults);
    e := Guard(AppTarget(port, bypass), done && faults.recaptures, faults.records);
  }

  method DisableEvent(app: Sysopt, port: nat, bypass: string, faults: Faults) returns (ok: bool, ghost e: Event)
    requires app.Valid() && faults.Plausible(app.DisableWrites())
    modifies app
    ensures app.Valid() && Step(old(app.Now()), e, app.Now())
    ensures e == if ok then Release else Foreign
  {
    hide Shows, SystemProxy, RestoredIfUnchanged;
    ok := app.DisableSysproxy(port, bypass, faults);
    e := if ok then Release else Foreign;
  }

  method ResetEvent(app: Sysopt, faults: Faults) returns (ok: bool, ghost e: Event)
    requires app.Valid() && faults.Plausible(app.ResetWrites())
    modifies app
    ensures app.Valid() && e == Release && Step(old(app.Now()), e, app.Now())
  {
    hide Shows, SystemProxy, RestoredIfUnchanged;
    ok := app.ResetSysproxy(faults);
    e := Release;
  }
}
