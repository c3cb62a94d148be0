/**
 Patching the Clash and the app configuration as transactions: open a draft, carry out side effects that can
 each fail, then save and commit, or discard and undo what was attempted.
 */
module ConfigTransaction {
  import opened Wrappers
  import opened Strings
  import opened ConfigDraft

  datatype Value = Null | Bool(flag: bool) | Number(number: int) | Text(text: string) | Items(items: seq<Value>)
                 | Entries(entries: Table)

  type Table = map<string, Value>

  function BoolAt(t: Table, key: string): Option<bool> {
    if key in t && t[key].Bool? then Some(t[key].flag) else None
  }

  predicate On(t: Table, key: string) { BoolAt(t, key) == Some(true) }

  function TableAt(t: Table, key: string): Table {
    if key in t && t[key].Entries? then t[key].entries else map[]
  }

  const DEFAULT_PORT := 7897

  /** `guard_mixed_port`: numbers are cut to 16 bits, zero and nonsense read as the default. */
  function ClashPort(clash: Table): nat {
    var port :=
      if "mixed-port" !in clash then DEFAULT_PORT
      else match clash["mixed-port"]
        case Text(text) => (match ParseU16(text) case Some(p) => p case None => DEFAULT_PORT)
        case Number(n) => if 0 <= n < 0x1_0000_0000_0000_0000 then n % 0x1_0000 else DEFAULT_PORT
        case _ => DEFAULT_PORT;
    if port == 0 then DEFAULT_PORT else port
  }

  /** The port in use: the app's own setting wins over Clash's. */
  function PortOf(verge: Table, clash: Table): int {
    if PortSet(verge) then verge["verge_mixed_port"].number else ClashPort(clash)
  }

  datatype Proxy = ProxyOff | ProxyOn(port: int, bypass: Option<Value>)

  function ProxyOf(verge: Table, clash: Table): Proxy {
    if On(verge, "enable_system_proxy") then
      ProxyOn(PortOf(verge, clash),
              if "system_proxy_bypass" in verge then Some(verge["system_proxy_bypass"]) else None)
    else ProxyOff
  }

  function HotkeysOf(verge: Table): Value {
    if "hotkeys" in verge then verge["hotkeys"] else Items([])
  }

  // ----- what a patch of the Clash configuration triggers

  predicate Restarts(patch: Table) {
    || "mixed-port" in patch || "socks-port" in patch || "port" in patch || "secret" in patch
    || "external-controller" in patch || BoolAt(patch, "allow-lan").Some?
  }

  predicate RewritesRuntime(patch: Table) { "allow-lan" in patch || "ipv6" in patch || "log-level" in patch }

  /** A patched port, if it is one: out-of-range numbers are refused rather than truncated. */
  function RequestedPort(value: Value): Option<nat> {
    match value
    case Number(n) => if 0 <= n < 0x1_0000 then Some(n) else None
    case Text(text) => ParseU16(Trim(text))
    case _ => None
  }

  predicate IsLower(key: string) { forall i :: 0 <= i < |key| ==> LowerAscii(key[i]) == key[i] }

  /** `IRuntime::patch_config` on a generated configuration. */
  function PatchedTable(config: Table, patch: Table): Table {
    WithTun(WithDns(WithPlain(config, patch), patch), patch)
  }

  function WithPlain(config: Table, patch: Table): Table {
    config + (map key | key in patch && key in {"allow-lan", "ipv6", "log-level"} :: patch[key])
  }

  function WithDns(config: Table, patch: Table): Table {
    if BoolAt(patch, "ipv6").Some?
    then config["dns" := Entries(TableAt(config, "dns")["ipv6" := patch["ipv6"]])]
    else config
  }

  function WithTun(config: Table, patch: Table): Table {
    var tun := TableAt(patch, "tun");
    config["tun" := Entries(TableAt(config, "tun") + (map key | key in tun && IsLower(key) :: tun[key]))]
  }

  function PatchedRuntime(config: Option<Table>, patch: Table): Option<Table> {
    if config.None? then None else Some(PatchedTable(config.value, patch))
  }

  function At(t: Table, key: string): Option<Value> { if key in t then Some(t[key]) else None }

  /** Key by key, what a patch makes of a runtime configuration. */
  ghost predicate RuntimeFollows(base: Table, patch: Table, r: Table) {
    && (forall k :: k != "dns" && k != "tun" ==>
          At(r, k) == if k in ["allow-lan", "ipv6", "log-level"] && k in patch then At(patch, k) else At(base, k))
    && DnsFollows(base, patch, r)
    && TunFollows(base, patch, r)
  }

  /** Every lower-case key of the patch's tun section is in the section, which is otherwise kept. */
  ghost predicate TunFollows(base: Table, patch: Table, r: Table) {
    && "tun" in r && r["tun"].Entries?
    && forall k :: At(r["tun"].entries, k) ==
         if k in TableAt(patch, "tun") && IsLower(k) then At(TableAt(patch, "tun"), k) else At(TableAt(base, "tun"), k)
  }

  /** With a boolean in the patch the DNS section follows it and is otherwise kept; without, nothing happens to it. */
  ghost predicate DnsFollows(base: Table, patch: Table, r: Table) {
    if "ipv6" in patch && patch["ipv6"].Bool?
    then "dns" in r && r["dns"].Entries?
         && forall k ::
           At(r["dns"].entries, k) == if k == "ipv6" then Some(patch["ipv6"]) else At(TableAt(base, "dns"), k)
    else At(r, "dns") == At(base, "dns")
  }

  lemma PlainByKey(base: Table, patch: Table, k: string)
    ensures At(WithPlain(base, patch), k) ==
              if k in ["allow-lan", "ipv6", "log-level"] && k in patch then At(patch, k) else At(base, k)
  {
  }

  lemma DnsByKey(base: Table, patch: Table)
    ensures DnsFollows(base, patch, WithDns(base, patch))
    ensures forall k :: k != "dns" ==> At(WithDns(base, patch), k) == At(base, k)
  {
  }

  lemma TunByKey(base: Table, patch: Table)
    ensures TunFollows(base, patch, WithTun(base, patch))
    ensures forall k :: k != "tun" ==> At(WithTun(base, patch), k) == At(base, k)
  {
    hide IsLower;
  }

  lemma SectionsAreNotPlain()
    ensures "dns" !in ["allow-lan", "ipv6", "log-level"] && "tun" !in ["allow-lan", "ipv6", "log-level"]
    ensures "tun" != "dns"
  {
    assert "dns"[0] == 'd' && "tun"[0] == 't';
  }

  lemma OtherByKey(base: Table, patch: Table, k: string)
    requires k != "dns" && k != "tun"
    ensures At(PatchedTable(base, patch), k) ==
              if k in ["allow-lan", "ipv6", "log-level"] && k in patch then At(patch, k) else At(base, k)
  {
    PlainByKey(base, patch, k);
    DnsByKey(WithPlain(base, patch), patch);
    TunByKey(WithDns(WithPlain(base, patch), patch), patch);
    hide WithPlain, WithDns, WithTun, DnsFollows, TunFollows;
  }

  /** The DNS section of a table with the same one follows alike. */
  lemma DnsAlike(base: Table, base': Table, patch: Table, r: Table, r': Table)
    requires At(base, "dns") == At(base', "dns") && At(r, "dns") == At(r', "dns") && DnsFollows(base, patch, r)
    ensures DnsFollows(base', patch, r')
  {
  }

  lemma TunAlike(base: Table, base': Table, patch: Table, r: Table)
    requires At(base, "tun") == At(base', "tun") && TunFollows(base, patch, r)
    ensures TunFollows(base', patch, r)
  {
  }

  lemma PatchedByKey(base: Table, patch: Table)
    ensures RuntimeFollows(base, patch, PatchedTable(base, patch))
  {
    var plain := WithPlain(base, patch);
    var named := WithDns(plain, patch);
    SectionsAreNotPlain();
    PlainByKey(base, patch, "dns");
    PlainByKey(base, patch, "tun");
    DnsByKey(plain, patch);
    TunByKey(named, patch);
    DnsAlike(plain, base, patch, named, PatchedTable(base, patch));
    TunAlike(named, base, patch, PatchedTable(base, patch));
    forall k | k != "dns" && k != "tun"
      ensures At(PatchedTable(base, patch), k) ==
                if k in ["allow-lan", "ipv6", "log-level"] && k in patch then At(patch, k) else At(base, k)
    {
      OtherByKey(base, patch, k);
    }
    hide PatchedTable, At, DnsFollows, TunFollows;
  }

  // ----- the transactions

  /**
   `Refused`: turned down before anything was drafted. `Failed`: undone. `RollbackFailed`: undoing some side
   effect failed as well.
   */
  datatype Outcome = Committed | Refused | Failed | RollbackFailed

  datatype Tried = Tried(restart: bool, reload: bool, file: bool, proxy: bool)

  predicate PortSet(verge: Table) { "verge_mixed_port" in verge && verge["verge_mixed_port"].Number? }

  // ----- what a patch of the app configuration triggers

  predicate ChangesCore(patch: Table) { "enable_service_mode" in patch || "enable_tun_mode" in patch }

  predicate ChangesProxy(patch: Table) {
    "enable_system_proxy" in patch || "system_proxy_bypass" in patch || "verge_mixed_port" in patch
  }

  predicate ChangesTray(patch: Table) {
    || "language" in patch || "enable_system_proxy" in patch || "enable_tun_mode" in patch
    || "common_tray_icon" in patch || "sysproxy_tray_icon" in patch || "tun_tray_icon" in patch
  }

  /** TUN mode is only ever on together with service mode. */
  predicate TunHasService(verge: Table) { On(verge, "enable_tun_mode") ==> On(verge, "enable_service_mode") }

  datatype VergeTried = VergeTried(restart: bool, reload: bool, launch: bool, proxy: bool, hotkeys: bool, tray: bool)

  // ----- what the foreign calls of one pass answer

  /** Every call that can fail, in the order in which a patch or its undoing makes them. */
  datatype Replies = Replies(
    portFree: bool,                                // nobody listens on the requested port
    firewall: bool, firewallLeft: bool,            // the LAN rules are set; what is there otherwise
    written: bool, started: bool,                  // run_core: runtime file, start
    checked: bool, stored: bool, reloaded: bool,   // update_config: check, runtime file, hand-over
    others: set<int>,                              // local ports on which anything but the core's proxy ports answers
    proxySet: bool, proxyLeft: Proxy,              // the system proxy is set; what is there otherwise
    rewritten: bool, saved: bool,                  // runtime file; the patched configuration's own file
    elevated: bool, installed: bool, ready: bool,  // administrator; service
    launched: bool, launchLeft: bool,              // the auto-launch entry is made or removed; what is there otherwise
    redrawn: bool)                                 // tray

  // ----- who answers on a port

  predicate Listens(config: Table, key: string, port: int) { key in config && config[key] == Number(port) }

  /** A core with this configuration serves the port as a proxy. */
  predicate Serves(core: Option<Table>, port: int) {
    && core.Some? && port > 0
    && (Listens(core.value, "mixed-port", port) || Listens(core.value, "socks-port", port)
        || Listens(core.value, "port", port))
  }

  /** `wait_for_local_proxy`: the core runs, and it or anything else answers on the port. */
  predicate Answers(core: Option<Table>, port: int, others: set<int>) {
    core.Some? && port > 0 && (Serves(core, port) || port in others)
  }

  /** Only an enabled proxy is waited for. */
  predicate ProxyAnswers(core: Option<Table>, target: Proxy, others: set<int>) {
    target.ProxyOn? ==> Answers(core, target.port, others)
  }

  predicate ProxyUpdates(core: Option<Table>, target: Proxy, o: Replies) {
    ProxyAnswers(core, target, o.others) && o.proxySet
  }

  // ----- what a transaction does to the world

  /** Committed configurations, their files, and everything outside that follows them. */
  datatype World = World(
    clash: Table, verge: Table,
    runtime: Option<Table>,       // as everybody reads it
    kept: Option<Table>,          // what is left of it if its draft is dropped
    clashFile: Table, vergeFile: Table, runtimeFile: Option<Table>,
    core: Option<Table>,          // configuration the core runs with
    proxy: Proxy,                 // system proxy as last set
    firewall: bool,               // LAN rules present
    launch: bool,                 // auto-launch entry present
    hotkeys: Value)               // hotkeys registered

  type Enhance = (Table, Table) -> Table

  function Generated(e: Enhance, w: World): Option<Table> { Some(e(w.clash, w.verge)) }

  /** The system proxy leads to a port that the core serves. */
  predicate Served(w: World) { w.proxy.ProxyOn? ==> Serves(w.core, w.proxy.port) }

  /**
   Files, proxy, firewall, hotkeys and auto-launch are as the committed configuration says, and the proxy is served.
   */
  ghost predicate InStep(w: World) {
    && w.clashFile == w.clash && w.vergeFile == w.verge
    && w.proxy == ProxyOf(w.verge, w.clash) && Served(w)
    && w.firewall == On(w.clash, "allow-lan")
    && w.hotkeys == HotkeysOf(w.verge)
    && (On(w.verge, "enable_auto_launch") ==> w.launch)
  }

  /** So are the runtime configuration, its file, and what the core runs with. */
  ghost predicate Settled(e: Enhance, w: World) {
    InStep(w) && w.runtime == w.runtimeFile == w.core == Generated(e, w)
  }

  // ----- when a Clash patch goes through

  predicate LanPermitted(patch: Table, o: Replies) {
    "allow-lan" in patch ==> BoolAt(patch, "allow-lan").Some? && o.firewall
  }

  /** A changed port must be a free 16-bit one. */
  predicate PortPermitted(w: World, patch: Table, o: Replies) {
    "mixed-port" in patch && !On(w.verge, "enable_random_port")
    && patch["mixed-port"] != Number(PortOf(w.verge, w.clash)) ==>
      o.portFree && RequestedPort(patch["mixed-port"]).Some?
  }

  predicate RunOk(o: Replies) { o.written && o.started }

  predicate ReloadOk(o: Replies) { o.checked && o.stored && o.reloaded }

  /** What the core would run with once patched. */
  function NextConfig(e: Enhance, w: World, patch: Table): Option<Table> { Some(e(w.clash + patch, w.verge)) }

  predicate Regenerates(patch: Table) { Restarts(patch) || "tun" in patch }

  /** The proxy is updated by the committed port, while the core already runs with the patched configuration. */
  predicate PortFollows(e: Enhance, w: World, patch: Table, o: Replies) {
    "mixed-port" in patch ==> ProxyUpdates(NextConfig(e, w, patch), ProxyOf(w.verge, w.clash), o)
  }

  /** All side effects of a Clash patch succeed. */
  predicate ClashApplies(e: Enhance, w: World, patch: Table, o: Replies) {
    && PortPermitted(w, patch, o)
    && (Restarts(patch) ==> RunOk(o))
    && PortFollows(e, w, patch, o)
    && ("tun" in patch ==> ReloadOk(o))
    && (RewritesRuntime(patch) ==> o.rewritten && (Regenerates(patch) || w.runtime.Some?))
    && o.saved
  }

  /** Which side effects are attempted before one fails. */
  function TriedClash(e: Enhance, w: World, patch: Table, o: Replies): Tried {
    if !PortPermitted(w, patch, o) then Tried(false, false, false, false)
    else
      var up := Restarts(patch) ==> RunOk(o);
      var reload := up && PortFollows(e, w, patch, o) && "tun" in patch;
      var file := up && PortFollows(e, w, patch, o) && ("tun" in patch ==> ReloadOk(o)) && RewritesRuntime(patch);
      Tried(Restarts(patch), reload, Restarts(patch) || file, up && "mixed-port" in patch)
  }

  predicate RestoreOk(tried: Tried, u: Replies) {
    if tried.restart then RunOk(u) else if tried.reload then ReloadOk(u) else tried.file ==> u.rewritten
  }

  /** Undoing what was attempted succeeds. */
  predicate ClashUndoes(e: Enhance, w: World, patch: Table, tried: Tried, u: Replies) {
    && RestoreOk(tried, u)
    && (tried.proxy ==>
          ProxyUpdates(if tried.restart || tried.reload then Generated(e, w) else w.core, ProxyOf(w.verge, w.clash), u))
    && ("allow-lan" in patch ==> u.firewall)
  }

  /** A Clash patch went through: the old data overlaid with the patch, saved, and in effect where it has to be. */
  ghost predicate ClashCommitted(e: Enhance, w: World, patch: Table, w': World) {
    var base := if Regenerates(patch) then Generated(e, w') else w.runtime;
    && w'.clash == w.clash + patch && w'.clashFile == w'.clash
    && w'.runtime == w'.kept == PatchedRuntime(base, patch)
    && w'.runtimeFile == (if RewritesRuntime(patch) then w'.runtime else if Regenerates(patch) then base
        else w.runtimeFile)
    && w'.core == (if Regenerates(patch) then base else w.core)
    && w'.proxy == (if "mixed-port" in patch then ProxyOf(w.verge, w.clash) else w.proxy)
    && w'.firewall == (if "allow-lan" in patch then On(w'.clash, "allow-lan") else w.firewall)
    && w'.verge == w.verge && w'.vergeFile == w.vergeFile && w'.launch == w.launch && w'.hotkeys == w.hotkeys
  }

  /** A Clash patch failed and was undone: what was attempted is as the old data has it, everything else as it was. */
  ghost predicate ClashUndone(e: Enhance, w: World, patch: Table, tried: Tried, w': World) {
    var again := Generated(e, w);
    var touched := tried.restart || tried.reload || tried.file;
    w' == w.(runtime := if touched then again else w.kept,
             kept := if touched then again else w.kept,
             runtimeFile := if touched then again else w.runtimeFile,
             core := if tried.restart || tried.reload then again else w.core,
             proxy := if tried.proxy then ProxyOf(w.verge, w.clash) else w.proxy,
             firewall := if "allow-lan" in patch then On(w.clash, "allow-lan") else w.firewall)
  }

  /** In the middle of a Clash patch that is about to fail: only what was attempted can be different. */
  ghost predicate ClashDisturbed(w: World, patch: Table, tried: Tried, w': World) {
    && w' == w.(runtime := w'.runtime, runtimeFile := w'.runtimeFile, core := w'.core, proxy := w'.proxy,
        firewall := w'.firewall)
    && (!tried.restart && !tried.reload ==> w'.core == w.core)
    && (!tried.restart && !tried.reload && !tried.file ==> w'.runtimeFile == w.runtimeFile)
    && (!tried.proxy ==> w'.proxy == w.proxy)
    && ("allow-lan" !in patch ==> w'.firewall == w.firewall)
  }

  /**
   All or nothing: undone from a settled world, a Clash patch leaves no trace but in the runtime configuration, and
   there none if and only if something was attempted or no draft of it was dropped.
   */
  lemma UndoneClashLeavesNoTrace(e: Enhance, w: World, patch: Table, tried: Tried, w': World)
    requires ClashUndone(e, w, patch, tried, w') && Settled(e, w)
    ensures w' == w.(runtime := w'.runtime, kept := w'.kept)
    ensures w'.runtime == w.runtime <==> tried.restart || tried.reload || tried.file || w.kept == w.runtime
    ensures w.kept == w.runtime ==> w' == w
  {
  }

  /**
   What a committed Clash patch does, key by key: ports, secret, controller and LAN access restart the core with the
   newly generated configuration, TUN settings are handed to it, and the runtime configuration follows the patch;
   so does its file where LAN access, IPv6 or the log level was patched.
   */
  lemma CommittedByKey(e: Enhance, w: World, patch: Table, w': World)
    requires ClashCommitted(e, w, patch, w')
    ensures forall k :: At(w'.clash, k) == if k in patch then At(patch, k) else At(w.clash, k)
    ensures var touched :=
        || (exists k :: k in ["mixed-port", "socks-port", "port", "secret", "external-controller", "tun"] && k in patch)
        || ("allow-lan" in patch && patch["allow-lan"].Bool?);
      var base := if touched then Some(e(w'.clash, w.verge)) else w.runtime;
      && w'.core == (if touched then base else w.core)
      && (base.None? ==> w'.runtime == None)
      && (base.Some? ==> w'.runtime.Some? && RuntimeFollows(base.value, patch, w'.runtime.value))
      && (if "allow-lan" in patch || "ipv6" in patch || "log-level" in patch then w'.runtimeFile == w'.runtime
          else w'.runtimeFile == if touched then base else w.runtimeFile)
  {
    WhatRegenerates(patch);
    var base := if Regenerates(patch) then Generated(e, w') else w.runtime;
    if base.Some? {
      PatchedByKey(base.value, patch);
    }
    hide PatchedTable, RuntimeFollows, Regenerates;
  }

  lemma WhatRegenerates(patch: Table)
    ensures Regenerates(patch) <==>
              || (exists k ::
                    k in ["mixed-port", "socks-port", "port", "secret", "external-controller", "tun"] && k in patch)
              || ("allow-lan" in patch && patch["allow-lan"].Bool?)
  {
    var keys := ["mixed-port", "socks-port", "port", "secret", "external-controller", "tun"];
    assert keys[0] in keys && keys[1] in keys && keys[2] in keys && keys[3] in keys;
    assert keys[4] in keys && keys[5] in keys;
  }

  lemma DecimalParses(n: nat)
    ensures ParseU16(Decimal(n)) == if n < 65536 then Some(n) else None
  {
    DecimalReadsBack(n);
    assert Decimal(n)[0] in Decimal(n);
    hide Decimal, DigitsValue;
  }

  /** Which port counts: the app's own, else Clash's as a number or a decimal text, else 7897. */
  lemma PortInUse(verge: Table, clash: Table, n: nat)
    ensures At(verge, "verge_mixed_port") == Some(Number(n)) ==> PortOf(verge, clash) == n
    ensures "verge_mixed_port" !in verge && 0 < n < 65536
            && (At(clash, "mixed-port") == Some(Number(n)) || At(clash, "mixed-port") == Some(Text(Decimal(n)))) ==>
              PortOf(verge, clash) == n
    ensures "verge_mixed_port" !in verge && ("mixed-port" !in clash || clash["mixed-port"] == Number(0)) ==>
              PortOf(verge, clash) == 7897
  {
    DecimalParses(n);
    hide Decimal, ParseU16;
  }

  /** A port asked for is a number or a decimal text below 65536. */
  lemma PortAskedFor(n: nat)
    ensures RequestedPort(Number(n)) == RequestedPort(Text(Decimal(n))) == if n < 65536 then Some(n) else None
  {
    DecimalParses(n);
    DecimalReadsBack(n);
    assert Decimal(n)[0] in Decimal(n) && Decimal(n)[|Decimal(n)| - 1] in Decimal(n);
    TrimKeepsTrimmed(Decimal(n));
    hide Decimal, ParseU16;
  }

  /** The system proxy is on exactly if switched on, at the port in use and with the bypass list of the app. */
  lemma ProxyInUse(verge: Table, clash: Table)
    ensures ProxyOf(verge, clash).ProxyOn? <==> At(verge, "enable_system_proxy") == Some(Bool(true))
    ensures var p := ProxyOf(verge, clash);
      p.ProxyOn? ==> p.port == PortOf(verge, clash) && p.bypass == At(verge, "system_proxy_bypass")
  {
  }

  /**
   After a committed Clash patch everything outside is in step again if and only if, with the system proxy on, the
   port did not change for the app and the core serves it.
   */
  lemma CommittedClashInStep(e: Enhance, w: World, patch: Table, w': World)
    requires ClashCommitted(e, w, patch, w') && InStep(w)
    ensures InStep(w') <==>
              (On(w.verge, "enable_system_proxy") ==>
                 && PortOf(w.verge, w'.clash) == PortOf(w.verge, w.clash)
                 && Serves(w'.core, PortOf(w.verge, w.clash)))
  {
  }

  /**
   With the system proxy on, a patch of Clash's port goes through only if somebody answers on the port in use before,
   the patched core or something else; and if every other call goes well, that is enough.
   */
  lemma PortPatchNeedsTheOldPort(e: Enhance, w: World, patch: Table, o: Replies)
    requires "mixed-port" in patch && On(w.verge, "enable_system_proxy")
    ensures var port := PortOf(w.verge, w.clash);
      var answered := Serves(NextConfig(e, w, patch), port) || (port > 0 && port in o.others);
      && (ClashApplies(e, w, patch, o) ==> answered)
      && (PortPermitted(w, patch, o) && RunOk(o) && ReloadOk(o) && o.proxySet && o.rewritten && o.saved ==>
            (ClashApplies(e, w, patch, o) <==> answered))
  {
    hide PortPermitted, RunOk, ReloadOk, RewritesRuntime;
  }

  /**
   In the running app, which has a port of its own, a patch of Clash's port that goes through leaves everything in
   step if and only if the patched core still serves the app's port, and otherwise only because something else
   answers there.
   */
  lemma PortPatchInStep(e: Enhance, w: World, patch: Table, o: Replies, w': World)
    requires ClashCommitted(e, w, patch, w') && ClashApplies(e, w, patch, o) && InStep(w)
    requires PortSet(w.verge) && On(w.verge, "enable_system_proxy") && "mixed-port" in patch
    ensures InStep(w') <==> Serves(NextConfig(e, w, patch), PortOf(w.verge, w.clash))
    ensures !InStep(w') ==> PortOf(w.verge, w.clash) in o.others
  {
    hide RunOk, ReloadOk, Serves, PatchedRuntime, RewritesRuntime, RequestedPort;
    CommittedClashInStep(e, w, patch, w');
  }

  lemma RulesFollow(clash: Table, patch: Table, firewall: bool)
    ensures "allow-lan" in patch && BoolAt(patch, "allow-lan") == Some(firewall) ==>
        On(clash + patch, "allow-lan") == firewall
  {
  }

  /** Whether a patch goes through does not depend on the LAN rules. */
  lemma SameButForTheRules(e: Enhance, w: World, w': World, patch: Table, o: Replies)
    requires w' == w.(firewall := w'.firewall)
    ensures ClashApplies(e, w', patch, o) == ClashApplies(e, w, patch, o)
    ensures TriedClash(e, w', patch, o) == TriedClash(e, w, patch, o)
  {
  }

  // ----- when a patch of the app configuration goes through

  predicate VergePermitted(w: World, patch: Table, o: Replies) {
    var service, tun := "enable_service_mode", "enable_tun_mode";
    && (On(patch, service) || On(patch, tun) ==> o.elevated)
    && !(On(w.verge, tun) && service in patch)
    && (On(patch, service) ==> o.installed)
    && (On(patch, tun) ==> o.installed && o.ready && On(if service in patch then patch else w.verge, service))
  }

  /** What a committed patch of the app configuration does, key by key. */
  lemma CommittedVergeByKey(e: Enhance, w: World, patch: Table, w': World)
    requires VergeCommitted(e, w, patch, w')
    ensures forall k :: At(w'.verge, k) == if k in patch then At(patch, k) else At(w.verge, k)
    ensures if "enable_service_mode" in patch || "enable_tun_mode" in patch
            then w'.core == w'.runtime == w'.runtimeFile == Some(e(w.clash, w'.verge))
            else w'.core == w.core && w'.runtime == w.runtime && w'.runtimeFile == w.runtimeFile
    ensures w'.proxy ==
              if "enable_system_proxy" in patch || "system_proxy_bypass" in patch || "verge_mixed_port" in patch
              then ProxyOf(w'.verge, w.clash) else w.proxy
    ensures w'.hotkeys == if "hotkeys" in patch then patch["hotkeys"] else w.hotkeys
    ensures At(patch, "enable_auto_launch") == Some(Bool(true)) ==> w'.launch
    ensures "enable_auto_launch" !in patch ==> w'.launch == w.launch
  {
  }

  lemma ModesAndPortStay(w: World, patch: Table, o: Replies)
    requires VergePermitted(w, patch, o)
    ensures TunHasService(w.verge) ==> TunHasService(w.verge + patch)
    ensures PortSet(w.verge) && ("verge_mixed_port" in patch ==> PortSet(patch)) ==> PortSet(w.verge + patch)
  {
  }

  predicate CoreFollows(patch: Table, o: Replies) {
    if "enable_service_mode" in patch then RunOk(o) else "enable_tun_mode" in patch ==> ReloadOk(o)
  }

  /** What the core runs with when the rest of a patch of the app configuration is carried out. */
  function CoreThen(e: Enhance, w: World, patch: Table): Option<Table> {
    if ChangesCore(patch) then Some(e(w.clash, w.verge + patch)) else w.core
  }

  predicate VergeApplies(e: Enhance, w: World, patch: Table, o: Replies) {
    && CoreFollows(patch, o)
    && ("enable_auto_launch" in patch && On(w.verge + patch, "enable_auto_launch") ==> o.launched)
    && (ChangesProxy(patch) ==> ProxyUpdates(CoreThen(e, w, patch), ProxyOf(w.verge + patch, w.clash), o))
    && (ChangesTray(patch) ==> o.redrawn)
    && o.saved
  }

  ghost predicate VergeCommitted(e: Enhance, w: World, patch: Table, w': World) {
    && w'.verge == w.verge + patch && w'.vergeFile == w'.verge
    && (if ChangesCore(patch) then w'.runtime == w'.runtimeFile == w'.core == Generated(e, w')
        else w'.runtime == w.runtime && w'.runtimeFile == w.runtimeFile && w'.core == w.core)
    && w'.kept == w'.runtime
    && w'.proxy == (if ChangesProxy(patch) then ProxyOf(w'.verge, w.clash) else w.proxy)
    && w'.hotkeys == (if "hotkeys" in patch then patch["hotkeys"] else w.hotkeys)
    && (if "enable_auto_launch" in patch then On(patch, "enable_auto_launch") ==> w'.launch else w'.launch == w.launch)
    && w'.clash == w.clash && w'.clashFile == w.clashFile && w'.firewall == w.firewall
  }

  ghost predicate VergeUndone(e: Enhance, w: World, patch: Table, w': World) {
    && (if ChangesCore(patch) then w'.runtime == w'.kept == w'.runtimeFile == w'.core == Generated(e, w)
        else w'.runtime == w'.kept == w.kept && w'.runtimeFile == w.runtimeFile && w'.core == w.core)
    && (w'.proxy == w.proxy || w'.proxy == ProxyOf(w.verge, w.clash))
    && (w'.hotkeys == w.hotkeys || w'.hotkeys == HotkeysOf(w.verge))
    && (w'.launch == w.launch || (On(w.verge, "enable_auto_launch") ==> w'.launch))
    && w' == w.(runtime := w'.runtime, kept := w'.kept, runtimeFile := w'.runtimeFile, core := w'.core,
                proxy := w'.proxy, hotkeys := w'.hotkeys, launch := w'.launch)
  }

  /**
   A committed patch of the app configuration brings everything outside in step with it, if and only if the core
   serves the system proxy's port. If the patch was about the proxy, that fails only where something else answers.
   */
  lemma CommittedVergeInStep(e: Enhance, w: World, patch: Table, o: Replies, w': World)
    requires VergeCommitted(e, w, patch, w') && VergeApplies(e, w, patch, o) && InStep(w)
    ensures InStep(w') <==> Served(w')
    ensures ChangesProxy(patch) && !InStep(w') ==> w'.proxy.port in o.others
    ensures !ChangesProxy(patch) && !ChangesCore(patch) ==> InStep(w')
  {
    hide RunOk, ReloadOk, Serves, ChangesTray;
    if !ChangesProxy(patch) {
      assert PortOf(w'.verge, w.clash) == PortOf(w.verge, w.clash);
    }
  }

  /**
   Undone from a settled world it leaves no trace, save an auto-launch entry that could not be removed again, and a
   draft of the runtime configuration that is dropped if and only if the core was not concerned.
   */
  lemma UndoneVergeLeavesNoTrace(e: Enhance, w: World, patch: Table, w': World)
    requires VergeUndone(e, w, patch, w') && Settled(e, w)
    ensures w' == w.(runtime := w'.runtime, kept := w'.kept, launch := w'.launch)
    ensures On(w.verge, "enable_auto_launch") ==> w'.launch
    ensures w'.runtime == w.runtime <==> ChangesCore(patch) || w.kept == w.runtime
    ensures w.kept == w.runtime ==> w' == w.(launch := w'.launch) && Settled(e, w')
  {
  }

  class App {
    const enhance: Enhance                   // from the Clash and the app configuration, for the current profile
    const clash: Draft<Table>
    const verge: Draft<Table>
    const runtime: Draft<Option<Table>>
    var clashFile: Table
    var vergeFile: Table
    var runtimeFile: Option<Table>
    var core: Option<Table>                  // configuration the core runs with
    var proxy: Proxy                         // system proxy as last set
    var firewall: bool                       // LAN rules present
    var launch: bool                         // auto-launch entry present
    var hotkeys: Value                       // hotkeys registered

    constructor (enhance: Enhance, clash: Table, verge: Table)
      ensures Valid() && NoDrafts()
      ensures this.clash.data == clash && this.verge.data == verge && this.enhance == enhance
      ensures fresh(this.clash) && fresh(this.verge) && fresh(this.runtime)
      ensures View() == World(clash, verge, None, None, clash, verge, None, None, ProxyOff, false, false, Items([]))
    {
      this.enhance := enhance;
      this.clash := new Draft(clash);
      this.verge := new Draft(verge);
      this.runtime := new Draft(None);
      clashFile, vergeFile, runtimeFile, core := clash, verge, None, None;
      proxy, firewall, launch, hotkeys := ProxyOff, false, false, Items([]);
    }

    ghost predicate Valid() {
      clash as object != verge && clash as object != runtime && verge as object != runtime
      && clash as object != this && verge as object != this && runtime as object != this
    }

    predicate NoDrafts()
      reads clash, verge, runtime
    {
      clash.draft.None? && verge.draft.None? && runtime.draft.None?
    }

    /** The runtime configuration as the latest drafts would have it. */
    function Latest(): Option<Table>
      reads clash, verge
    {
      Some(enhance(clash.Latest(), verge.Latest()))
    }

    ghost function View(): World
      reads this, clash, verge, runtime
    {
      World(clash.data, verge.data, runtime.Latest(), runtime.data,
            clashFile, vergeFile, runtimeFile, core, proxy, firewall, launch, hotkeys)
    }

    // ----- steps

    method Generate()
      requires Valid()
      modifies runtime
      ensures runtime.data == old(runtime.data) && runtime.draft == Some(Latest())
    {
      runtime.Edit(Latest());
    }

    /** Saving replaces the file in one step, or leaves it alone. */
    method WriteRuntimeFile(written: bool) returns (ok: bool)
      modifies this`runtimeFile
      ensures ok == (written && runtime.Latest().Some?)
      ensures runtimeFile == if ok then runtime.Latest() else old(runtimeFile)
    {
      ok := written && runtime.Latest().Some?;
      if ok {
        runtimeFile := runtime.Latest();
      }
    }

    /** `run_core`: a start that fails leaves the core down. */
    method RunCore(o: Replies) returns (ok: bool)
      modifies this`runtimeFile, this`core
      ensures ok == (RunOk(o) && runtime.Latest().Some?)
      ensures ok ==> runtimeFile == core == runtime.Latest()
    {
      ok := WriteRuntimeFile(o.written);
      if ok {
        core := None;
        ok := o.started;
        if ok {
          core := runtimeFile;
        }
      }
    }

    /** `update_config`: generate, have the core check it, write it, and hand it to the running core. */
    method UpdateConfig(o: Replies) returns (ok: bool)
      requires Valid()
      modifies this`runtimeFile, this`core, runtime
      ensures runtime.data == old(runtime.data) && runtime.draft == Some(Latest())
      ensures ok == ReloadOk(o)
      ensures ok ==> runtimeFile == core == Latest()
    {
      Generate();
      ok := o.checked;
      if ok {
        ok := WriteRuntimeFile(o.stored);
      }
      if ok {
        ok := o.reloaded;
        if ok {
          core := runtimeFile;
        }
      }
    }

    /**
     `update_sysproxy`: reads the latest app configuration but the committed Clash one, and enables nothing that
     does not answer.
     */
    method UpdateProxy(o: Replies) returns (ok: bool)
      modifies this`proxy
      ensures ok == ProxyUpdates(core, ProxyOf(verge.Latest(), clash.data), o)
      ensures ok ==> proxy == ProxyOf(verge.Latest(), clash.data)
      ensures !ProxyAnswers(core, ProxyOf(verge.Latest(), clash.data), o.others) ==> proxy == old(proxy)
    {
      var target := ProxyOf(verge.Latest(), clash.data);
      if target.ProxyOn? && !Answers(core, target.port, o.others) {
        return false;
      }
      ok, proxy := o.proxySet, if o.proxySet then target else o.proxyLeft;
    }

    method SetFirewall(enabled: bool, o: Replies) returns (ok: bool)
      modifies this`firewall
      ensures ok == o.firewall
      ensures firewall == if ok then enabled else o.firewallLeft
    {
      ok, firewall := o.firewall, if o.firewall then enabled else o.firewallLeft;
    }

    // ----- start-up

    /**
     `resolve_setup`: the port in use, or a free one, becomes both configurations' own; then the runtime configuration
     is generated, as a draft that nobody applies, the core started, and the system proxy set.
     */
    method Launch(found: Option<nat>, o: Replies) returns (up: bool)
      requires Valid() && NoDrafts()
      modifies this`clashFile, this`vergeFile, this`runtimeFile, this`core, this`proxy, clash, verge, runtime
      ensures clash.draft.None? && verge.draft.None? && runtime.draft == Some(Latest())
          && runtime.data == old(runtime.data)
      ensures PortSet(verge.data) && Listens(clash.data, "mixed-port", PortOf(verge.data, clash.data))
      ensures var random := On(old(verge.data), "enable_random_port") && found.Some?;
        var port := if random then found.value else PortOf(old(verge.data), old(clash.data));
        && verge.data == old(verge.data)["verge_mixed_port" := Number(port)]
        && clash.data == old(clash.data)["mixed-port" := Number(port)]
      ensures o.saved ==> clashFile == clash.data && vergeFile == verge.data
      ensures up ==> runtimeFile == core == Latest() && proxy == ProxyOf(verge.data, clash.data)
      ensures up == (RunOk(o) && ProxyUpdates(Latest(), ProxyOf(verge.data, clash.data), o))
    {
      hide ProxyOf, Serves;
      var port: int := PortOf(verge.Latest(), clash.data);
      if On(verge.Latest(), "enable_random_port") && found.Some? {
        port := found.value;
      }
      verge.data := verge.data["verge_mixed_port" := Number(port)];
      clash.data := clash.data["mixed-port" := Number(port)];
      if o.saved {
        vergeFile, clashFile := verge.data, clash.data;
      }
      Generate();
      up := RunCore(o);
      if up {
        up := UpdateProxy(o);
      }
    }

    // ----- patch_clash

    /** The port check. */
    method CheckPort(patch: Table, o: Replies) returns (ok: bool)
      requires verge.draft.None?
      ensures ok == PortPermitted(View(), patch, o)
    {
      ok := true;
      if "mixed-port" in patch && !On(verge.Latest(), "enable_random_port")
         && patch["mixed-port"] != Number(PortOf(verge.Latest(), clash.data)) {
        ok := o.portFree && RequestedPort(patch["mixed-port"]).Some?;
      }
    }

    /** The LAN rules are set before anything is drafted. */
    method SetLan(patch: Table, o: Replies) returns (ok: bool)
      modifies this`firewall
      ensures ok == LanPermitted(patch, o)
      ensures ok && "allow-lan" in patch ==> BoolAt(patch, "allow-lan") == Some(firewall)
      ensures "allow-lan" !in patch || BoolAt(patch, "allow-lan").None? ==> firewall == old(firewall)
    {
      ok := true;
      if "allow-lan" in patch {
        var allowLan := BoolAt(patch, "allow-lan");
        if allowLan.None? {
          return false;
        }
        ok := SetFirewall(allowLan.value, o);
      }
    }

    /** Restarting the core and updating the proxy, after the port check. */
    method ApplyPorts(patch: Table, o: Replies) returns (ok: bool, tried: Tried)
      requires Valid() && clash.draft == Some(clash.data + patch) && verge.draft.None?
      modifies this`runtimeFile, this`core, this`proxy, clash, runtime
      ensures runtime.data == old(runtime.data) && clash.data == old(clash.data)
      ensures ok == (&& PortPermitted(old(View()), patch, o) && (Restarts(patch) ==> RunOk(o))
                     && PortFollows(enhance, old(View()), patch, o))
      ensures tried == (if !PortPermitted(old(View()), patch, o) then Tried(false, false, false, false)
                        else Tried(Restarts(patch), false, Restarts(patch),
                                   (Restarts(patch) ==> RunOk(o)) && "mixed-port" in patch))
      ensures !tried.restart ==>
        core == old(core) && runtimeFile == old(runtimeFile) && runtime.draft == old(runtime.draft)
      ensures !tried.proxy ==> proxy == old(proxy)
      ensures ok ==>
        && clash.draft == old(clash.draft)
        && (Restarts(patch) ==>
              runtime.draft == Some(NextConfig(enhance, old(View()), patch))
              && runtimeFile == core == NextConfig(enhance, old(View()), patch))
        && proxy == (if "mixed-port" in patch then ProxyOf(verge.data, clash.data) else old(proxy))
    {
      hide ProxyOf, RequestedPort, Serves;
      tried := Tried(false, false, false, false);
      ok := CheckPort(patch, o);
      if !ok {
        var _ := clash.Discard();
        return;
      }
      if Restarts(patch) {
        Generate();
        tried := tried.(restart := true, file := true);
        ok := RunCore(o);
        if !ok { return; }
      }
      if "mixed-port" in patch {
        tried := tried.(proxy := true);
        ok := UpdateProxy(o);
      }
    }

    /** Handing the configuration to the core, patching the runtime configuration, and saving. */
    method ApplySettings(patch: Table, o: Replies) returns (ok: bool, reload: bool, file: bool)
      requires Valid() && clash.draft.Some? && verge.draft.None?
      modifies this`clashFile, this`runtimeFile, this`core, runtime
      ensures runtime.data == old(runtime.data)
      ensures !ok ==> clashFile == old(clashFile)
      ensures reload == ("tun" in patch)
      ensures file == (("tun" in patch ==> ReloadOk(o)) && RewritesRuntime(patch))
      ensures var base := if "tun" in patch then old(Latest()) else old(runtime.Latest());
        ok == (&& ("tun" in patch ==> ReloadOk(o)) && (RewritesRuntime(patch) ==> o.rewritten && base.Some?) && o.saved)
      ensures !reload ==> core == old(core)
      ensures !reload && !file ==> runtimeFile == old(runtimeFile)
      ensures ok ==>
        var base := if "tun" in patch then old(Latest()) else old(runtime.Latest());
        && Some(clashFile) == clash.draft
        && runtime.draft == Some(PatchedRuntime(base, patch))
        && runtimeFile == (if RewritesRuntime(patch) then PatchedRuntime(base, patch)
                           else if "tun" in patch then base else old(runtimeFile))
        && core == (if "tun" in patch then base else old(core))
    {
      hide PatchedTable;
      reload, file, ok := "tun" in patch, false, true;
      if reload {
        ok := UpdateConfig(o);
        if !ok { return; }
      }
      runtime.Edit(PatchedRuntime(runtime.Latest(), patch));
      if RewritesRuntime(patch) {
        file := true;
        ok := WriteRuntimeFile(o.rewritten);
        if !ok { return; }
      }
      ok := o.saved;
      if ok {
        clashFile := clash.Latest();
      }
    }

    /** The side effects of a Clash patch, in order, up to the first failure. */
    method ApplyClash(patch: Table, o: Replies) returns (ok: bool, tried: Tried)
      requires Valid() && clash.draft == Some(clash.data + patch) && verge.draft.None?
      modifies this`clashFile, this`runtimeFile, this`core, this`proxy, clash, runtime
      ensures ok == ClashApplies(enhance, old(View()), patch, o)
      ensures tried == TriedClash(enhance, old(View()), patch, o)
      ensures runtime.data == old(runtime.data) && clash.data == old(clash.data)
      ensures !ok ==> clashFile == old(clashFile)
      ensures !tried.restart && !tried.reload ==> core == old(core)
      ensures !tried.restart && !tried.reload && !tried.file ==> runtimeFile == old(runtimeFile)
      ensures !tried.proxy ==> proxy == old(proxy)
      ensures ok ==>
        var base := if Regenerates(patch) then NextConfig(enhance, old(View()), patch) else old(runtime.Latest());
        && clash.draft == old(clash.draft) && Some(clashFile) == clash.draft
        && runtime.draft == Some(PatchedRuntime(base, patch))
        && runtimeFile == (if RewritesRuntime(patch) then PatchedRuntime(base, patch)
                           else if Regenerates(patch) then base else old(runtimeFile))
        && core == (if Regenerates(patch) then base else old(core))
        && proxy == (if "mixed-port" in patch then ProxyOf(verge.data, clash.data) else old(proxy))
    {
      hide PatchedRuntime, ProxyOf, PortPermitted, PortFollows, RunOk, ReloadOk, Restarts, RewritesRuntime;
      ok, tried := ApplyPorts(patch, o);
      if ok {
        var reload, file;
        ok, reload, file := ApplySettings(patch, o);
        tried := tried.(reload := reload, file := tried.file || file);
      }
    }

    /** Undoing what was attempted, from the committed configuration. */
    method RestoreRuntime(restart: bool, reload: bool, u: Replies) returns (ok: bool)
      requires Valid() && clash.draft.None? && verge.draft.None? && runtime.draft.None?
      modifies this`runtimeFile, this`core, runtime
      ensures ok == if restart then RunOk(u) else if reload then ReloadOk(u) else u.rewritten
      ensures ok ==> runtime.data == runtimeFile == Latest() && runtime.draft.None?
      ensures ok && (restart || reload) ==> core == Latest()
      ensures !restart && !reload ==> core == old(core)
    {
      Generate();
      if restart {
        ok := RunCore(u);
      } else if reload {
        ok := UpdateConfig(u);
      } else {
        ok := WriteRuntimeFile(u.rewritten);
      }
      if ok {
        var _ := runtime.Apply();
      }
    }

    method UndoRuntime(tried: Tried, u: Replies) returns (restored: bool)
      requires Valid() && clash.draft.None? && verge.draft.None?
      modifies this`runtimeFile, this`core, runtime
      ensures restored == RestoreOk(tried, u)
      ensures restored ==> runtime.draft.None?
      ensures restored && (tried.restart || tried.reload || tried.file) ==> runtime.data == runtimeFile == Latest()
      ensures restored && (tried.restart || tried.reload) ==> core == Latest()
      ensures !tried.restart && !tried.reload ==> core == old(core)
      ensures !tried.restart && !tried.reload && !tried.file ==>
        runtime.data == old(runtime.data) && runtimeFile == old(runtimeFile)
    {
      hide RunOk, ReloadOk;
      var _ := runtime.Discard();
      restored := true;
      if tried.restart || tried.reload || tried.file {
        restored := RestoreRuntime(tried.restart, tried.reload, u);
      }
    }

    /** The last two undoings, which are tried whatever became of the first. */
    method UndoOutside(proxied: bool, ruled: bool, u: Replies) returns (restored: bool)
      requires Valid() && verge.draft.None? && clash.draft.None?
      modifies this`proxy, this`firewall
      ensures restored == (&& (proxied ==> ProxyUpdates(core, ProxyOf(verge.data, clash.data), u))
          && (ruled ==> u.firewall))
      ensures restored && proxied ==> proxy == ProxyOf(verge.data, clash.data)
      ensures !proxied ==> proxy == old(proxy)
      ensures restored && ruled ==> firewall == On(clash.data, "allow-lan")
      ensures !ruled ==> firewall == old(firewall)
    {
      hide ProxyOf, ProxyUpdates, On;
      restored := true;
      if proxied {
        restored := UpdateProxy(u);
      }
      if ruled {
        var ok := SetFirewall(On(clash.data, "allow-lan"), u);
        restored := restored && ok;
      }
    }

    /** `w` is the world before the patch. */
    method UndoClash(ghost w: World, patch: Table, tried: Tried, u: Replies) returns (restored: bool)
      requires Valid() && verge.draft.None? && ClashDisturbed(w, patch, tried, View())
      modifies this`runtimeFile, this`core, this`proxy, this`firewall, clash, runtime
      ensures clash.data == old(clash.data) && clash.draft.None?
      ensures restored == ClashUndoes(enhance, w, patch, tried, u)
      ensures restored ==> runtime.draft.None? && ClashUndone(enhance, w, patch, tried, View())
    {
      hide ProxyOf, ProxyUpdates, RestoreOk, On;
      var _ := clash.Discard();
      restored := UndoRuntime(tried, u);
      var ok := UndoOutside(tried.proxy, "allow-lan" in patch, u);
      restored := restored && ok;
    }

    /** Both drafts become data; every side effect of the patch is in place. */
    method CommitClash(ghost w: World, patch: Table)
      requires Valid() && verge.draft.None? && clash.draft == Some(w.clash + patch) && Some(clashFile) == clash.draft
      requires var base := if Regenerates(patch) then NextConfig(enhance, w, patch) else w.runtime;
        && runtime.draft == Some(PatchedRuntime(base, patch))
        && runtimeFile == (if RewritesRuntime(patch) then PatchedRuntime(base, patch)
                           else if Regenerates(patch) then base else w.runtimeFile)
        && core == (if Regenerates(patch) then base else w.core)
      requires proxy == (if "mixed-port" in patch then ProxyOf(w.verge, w.clash) else w.proxy)
      requires if "allow-lan" in patch then BoolAt(patch, "allow-lan") == Some(firewall) else firewall == w.firewall
      requires verge.data == w.verge && vergeFile == w.vergeFile && launch == w.launch && hotkeys == w.hotkeys
      modifies clash, runtime
      ensures clash.draft.None? && runtime.draft.None? && ClashCommitted(enhance, w, patch, View())
    {
      hide PatchedRuntime, ProxyOf, RewritesRuntime, Regenerates, On, BoolAt;
      RulesFollow(w.clash, patch, firewall);
      var _ := clash.Apply();
      var _ := runtime.Apply();
    }

    /** With the draft open and the LAN rules set: apply and commit, or undo. `w` is the world before both. */
    method CarryOutClash(ghost w: World, patch: Table, o: Replies, u: Replies) returns (r: Outcome)
      requires Valid() && clash.draft == Some(clash.data + patch) && verge.draft.None?
      requires View() == w.(firewall := firewall)
      requires if "allow-lan" in patch then BoolAt(patch, "allow-lan") == Some(firewall) else firewall == w.firewall
      modifies this`clashFile, this`runtimeFile, this`core, this`proxy, this`firewall, clash, runtime
      ensures clash.draft.None? && !r.Refused? && (r.Committed? || r.Failed? ==> runtime.draft.None?)
      ensures r.Committed? <==> ClashApplies(enhance, w, patch, o)
      ensures r.Failed? <==>
                !ClashApplies(enhance, w, patch, o)
                    && ClashUndoes(enhance, w, patch, TriedClash(enhance, w, patch, o), u)
      ensures r.Committed? ==> ClashCommitted(enhance, w, patch, View())
      ensures r.Failed? ==> ClashUndone(enhance, w, patch, TriedClash(enhance, w, patch, o), View())
      ensures r.RollbackFailed? ==> clash.data == w.clash && clashFile == w.clashFile
    {
      hide PatchedRuntime, ProxyOf, Regenerates, RewritesRuntime, ClashApplies, TriedClash, ClashUndoes, ClashUndone;
      hide BoolAt, ClashCommitted;
      SameButForTheRules(enhance, w, View(), patch, o);
      var ok, tried := ApplyClash(patch, o);
      if ok {
        CommitClash(w, patch);
        return Committed;
      }
      var restored := UndoClash(w, patch, tried, u);
      return if restored then Failed else RollbackFailed;
    }

    /** `o` are the answers to the patch, `u` those to its undoing; together they decide the outcome. */
    method PatchClash(patch: Table, o: Replies, u: Replies) returns (r: Outcome)
      requires Valid() && clash.draft.None? && verge.draft.None?
      modifies this`clashFile, this`runtimeFile, this`core, this`proxy, this`firewall, clash, runtime
      ensures clash.draft.None? && verge.draft.None?
      ensures r.Committed? || r.Failed? ==> runtime.draft.None?
      ensures r.Refused? <==> !LanPermitted(patch, o)
      ensures r.Committed? <==> LanPermitted(patch, o) && ClashApplies(enhance, old(View()), patch, o)
      ensures r.Failed? <==>
                && LanPermitted(patch, o) && !ClashApplies(enhance, old(View()), patch, o)
                && ClashUndoes(enhance, old(View()), patch, TriedClash(enhance, old(View()), patch, o), u)
      ensures r.Committed? ==> ClashCommitted(enhance, old(View()), patch, View())
      ensures r.Refused? ==> View() == old(View()).(firewall := firewall)
      ensures r.Failed? ==>
                ClashUndone(enhance, old(View()), patch, TriedClash(enhance, old(View()), patch, o), View())
      ensures r.RollbackFailed? ==> clash.data == old(clash.data) && clashFile == old(clashFile)
    {
      hide ClashApplies, TriedClash, ClashUndoes, ClashUndone, ClashCommitted, BoolAt;
      var permitted := SetLan(patch, o);
      if !permitted {
        return Refused;
      }
      clash.Edit(clash.Latest() + patch);
      r := CarryOutClash(old(View()), patch, o, u);
    }

    // ----- patch_verge

    /** Disabling ignores errors; enabling does not. */
    method UpdateLaunch(o: Replies) returns (ok: bool)
      modifies this`launch
      ensures ok == (On(verge.Latest(), "enable_auto_launch") ==> o.launched)
      ensures ok && On(verge.Latest(), "enable_auto_launch") ==> launch
    {
      if On(verge.Latest(), "enable_auto_launch") {
        ok, launch := o.launched, o.launched || o.launchLeft;
      } else {
        ok, launch := true, launch && !o.launched;
      }
    }

    /** The checks before anything is drafted. */
    method VergeAllowed(patch: Table, o: Replies) returns (ok: bool)
      requires verge.draft.None?
      ensures ok == VergePermitted(View(), patch, o)
      ensures ok ==> !(On(verge.Latest(), "enable_tun_mode") && "enable_service_mode" in patch)
      ensures ok && On(patch, "enable_tun_mode") ==>
        On(if "enable_service_mode" in patch then patch else verge.Latest(), "enable_service_mode")
    {
      var service, tun := "enable_service_mode", "enable_tun_mode";
      if (On(patch, service) || On(patch, tun)) && !o.elevated {
        return false;
      }
      if On(verge.Latest(), tun) && service in patch {
        return false;
      }
      if On(patch, service) && !o.installed {
        return false;
      }
      if On(patch, tun) {
        var enabled := On(if service in patch then patch else verge.Latest(), service);
        if !o.installed || !enabled || !o.ready {
          return false;
        }
      }
      return true;
    }

    /** A change of service mode restarts the core, otherwise one of TUN mode reloads its configuration. */
    method ApplyVergeToCore(patch: Table, o: Replies) returns (ok: bool, restart: bool, reload: bool)
      requires Valid()
      modifies this`runtimeFile, this`core, runtime
      ensures runtime.data == old(runtime.data)
      ensures ok == CoreFollows(patch, o)
      ensures restart || reload <==> ChangesCore(patch)
      ensures ok && ChangesCore(patch) ==> runtime.draft == Some(Latest()) && runtimeFile == core == Latest()
      ensures !ChangesCore(patch) ==>
        runtime.draft == old(runtime.draft) && runtimeFile == old(runtimeFile) && core == old(core)
    {
      ok, restart, reload := true, "enable_service_mode" in patch, false;
      if restart {
        Generate();
        ok := RunCore(o);
      } else if "enable_tun_mode" in patch {
        reload := true;
        ok := UpdateConfig(o);
      }
    }

    method ApplyVergeToSystem(patch: Table, o: Replies) returns (ok: bool, launched: bool, proxied: bool)
      modifies this`proxy, this`launch
      ensures !proxied ==> proxy == old(proxy)
      ensures !launched ==> launch == old(launch)
      ensures ok == (
        && ("enable_auto_launch" in patch && On(verge.Latest(), "enable_auto_launch") ==> o.launched)
        && (ChangesProxy(patch) ==> ProxyUpdates(core, ProxyOf(verge.Latest(), clash.data), o)))
      ensures ok ==>
        && proxy == (if ChangesProxy(patch) then ProxyOf(verge.Latest(), clash.data) else old(proxy))
        && ("enable_auto_launch" in patch && On(verge.Latest(), "enable_auto_launch") ==> launch)
        && ("enable_auto_launch" !in patch ==> launch == old(launch))
    {
      ok, launched, proxied := true, "enable_auto_launch" in patch, false;
      if launched {
        ok := UpdateLaunch(o);
        if !ok { return; }
      }
      if ChangesProxy(patch) {
        proxied := true;
        ok := UpdateProxy(o);
      }
    }

    method ApplyVergeToShell(patch: Table, o: Replies) returns (ok: bool, rekeyed: bool, redrawn: bool)
      modifies this`hotkeys
      ensures hotkeys == if "hotkeys" in patch then patch["hotkeys"] else old(hotkeys)
      ensures !rekeyed ==> hotkeys == old(hotkeys)
      ensures ok == (ChangesTray(patch) ==> o.redrawn)
    {
      ok, rekeyed, redrawn := true, "hotkeys" in patch, ChangesTray(patch);
      if rekeyed {
        hotkeys := patch["hotkeys"];
      }
      if redrawn {
        ok := o.redrawn;
      }
    }

    /** What follows the core: system, shell, and saving. */
    method ApplyVergeOutside(patch: Table, o: Replies)
      returns (ok: bool, launched: bool, proxied: bool, rekeyed: bool, redrawn: bool)
      requires Valid()
      modifies this`vergeFile, this`proxy, this`launch, this`hotkeys
      ensures vergeFile == if ok then verge.Latest() else old(vergeFile)
      ensures ok == (
        && ("enable_auto_launch" in patch && On(verge.Latest(), "enable_auto_launch") ==> o.launched)
        && (ChangesProxy(patch) ==> ProxyUpdates(core, ProxyOf(verge.Latest(), clash.data), o))
        && (ChangesTray(patch) ==> o.redrawn) && o.saved)
      ensures !proxied ==> proxy == old(proxy)
      ensures !launched ==> launch == old(launch)
      ensures !rekeyed ==> hotkeys == old(hotkeys)
      ensures ok ==>
        && proxy == (if ChangesProxy(patch) then ProxyOf(verge.Latest(), clash.data) else old(proxy))
        && hotkeys == (if "hotkeys" in patch then patch["hotkeys"] else old(hotkeys))
        && ("enable_auto_launch" in patch && On(verge.Latest(), "enable_auto_launch") ==> launch)
        && ("enable_auto_launch" !in patch ==> launch == old(launch))
    {
      hide *;
      rekeyed, redrawn := false, false;
      ok, launched, proxied := ApplyVergeToSystem(patch, o);
      if ok {
        ok, rekeyed, redrawn := ApplyVergeToShell(patch, o);
      }
      if ok {
        ok := o.saved;
        if ok {
          vergeFile := verge.Latest();
        }
      }
    }

    /** The side effects of a patch of the app configuration, in order, up to the first failure. */
    method ApplyVerge(patch: Table, o: Replies) returns (ok: bool, tried: VergeTried)
      requires Valid() && verge.draft == Some(verge.data + patch) && clash.draft.None?
      modifies this`vergeFile, this`runtimeFile, this`core, this`proxy, this`launch, this`hotkeys, runtime
      ensures runtime.data == old(runtime.data)
      ensures !ok ==> vergeFile == old(vergeFile)
      ensures ok == VergeApplies(enhance, old(View()), patch, o)
      ensures tried.restart || tried.reload <==> ChangesCore(patch)
      ensures !ChangesCore(patch) ==>
        core == old(core) && runtimeFile == old(runtimeFile) && runtime.draft == old(runtime.draft)
      ensures !tried.proxy ==> proxy == old(proxy)
      ensures !tried.launch ==> launch == old(launch)
      ensures !tried.hotkeys ==> hotkeys == old(hotkeys)
      ensures ok ==>
        && vergeFile == verge.Latest()
        && (ChangesCore(patch) ==> runtime.draft == Some(Latest()) && runtimeFile == core == Latest())
        && proxy == (if ChangesProxy(patch) then ProxyOf(verge.Latest(), clash.data) else old(proxy))
        && hotkeys == (if "hotkeys" in patch then patch["hotkeys"] else old(hotkeys))
        && ("enable_auto_launch" in patch && On(verge.Latest(), "enable_auto_launch") ==> launch)
        && ("enable_auto_launch" !in patch ==> launch == old(launch))
    {
      hide ProxyOf, ChangesCore, ChangesProxy, ChangesTray, On, ProxyUpdates, CoreFollows;
      var restart, reload, launched, proxied, rekeyed, redrawn := false, false, false, false, false, false;
      ok, restart, reload := ApplyVergeToCore(patch, o);
      if ok {
        ok, launched, proxied, rekeyed, redrawn := ApplyVergeOutside(patch, o);
      }
      tried := VergeTried(restart, reload, launched, proxied, rekeyed, redrawn);
    }

    method UndoVerge(tried: VergeTried, u: Replies) returns (restored: bool)
      requires Valid() && clash.draft.None?
      modifies this`runtimeFile, this`core, this`proxy, this`launch, this`hotkeys, verge, runtime
      ensures verge.data == old(verge.data) && verge.draft.None?
      ensures restored ==> runtime.draft.None?
      ensures restored && (tried.restart || tried.reload) ==> runtime.data == runtimeFile == core == Latest()
      ensures !tried.restart && !tried.reload ==>
        runtime.data == old(runtime.data) && runtimeFile == old(runtimeFile) && core == old(core)
      ensures restored && tried.proxy ==> proxy == ProxyOf(verge.data, clash.data)
      ensures !tried.proxy ==> proxy == old(proxy)
      ensures restored && tried.launch && On(verge.data, "enable_auto_launch") ==> launch
      ensures !tried.launch ==> launch == old(launch)
      ensures hotkeys == if tried.hotkeys then HotkeysOf(verge.data) else old(hotkeys)
    {
      var _ := verge.Discard();
      var _ := runtime.Discard();
      restored := true;
      if tried.restart || tried.reload {
        restored := RestoreRuntime(tried.restart, tried.reload, u);
      }
      if tried.proxy {
        var ok := UpdateProxy(u);
        restored := restored && ok;
      }
      if tried.launch {
        var ok := UpdateLaunch(u);
        restored := restored && ok;
      }
      if tried.hotkeys {
        hotkeys := HotkeysOf(verge.data);
      }
      if tried.tray {
        restored := restored && u.redrawn;
      }
    }

    method PatchVerge(patch: Table, o: Replies, u: Replies) returns (r: Outcome)
      requires Valid() && clash.draft.None? && verge.draft.None?
      modifies this`vergeFile, this`runtimeFile, this`core, this`proxy, this`launch, this`hotkeys, verge, runtime
      ensures clash.draft.None? && verge.draft.None?
      ensures r.Committed? || r.Failed? ==> runtime.draft.None?
      ensures r.Refused? <==> !VergePermitted(old(View()), patch, o)
      ensures r.Committed? <==> VergePermitted(old(View()), patch, o) && VergeApplies(enhance, old(View()), patch, o)
      ensures r.Committed? ==> VergeCommitted(enhance, old(View()), patch, View())
      ensures r.Refused? ==> View() == old(View())
      ensures r.Failed? ==> VergeUndone(enhance, old(View()), patch, View())
      ensures r.RollbackFailed? ==> verge.data == old(verge.data) && vergeFile == old(vergeFile)
      ensures old(TunHasService(verge.data)) ==> TunHasService(verge.data)
      ensures old(PortSet(verge.data)) && ("verge_mixed_port" in patch ==> PortSet(patch)) ==> PortSet(verge.data)
    {
      hide ProxyOf, HotkeysOf, VergeApplies, VergePermitted, ChangesCore, ChangesProxy, TunHasService, PortSet;
      var allowed := VergeAllowed(patch, o);
      if !allowed {
        return Refused;
      }
      ModesAndPortStay(View(), patch, o);
      verge.Edit(verge.Latest() + patch);
      var ok, tried := ApplyVerge(patch, o);
      if ok {
        var _ := verge.Apply();
        var _ := runtime.Apply();
        return Committed;
      }
      var restored := UndoVerge(tried, u);
      return if restored then Failed else RollbackFailed;
    }
  }

  // ----- runs of an app with the system proxy on

  const ALL_WELL := Replies(true, true, false, true, true, true, true, true, {}, true, ProxyOff, true, true,
                            true, true, true, true, false, true)

  const PORTS: Table := map["mixed-port" := Number(7897), "socks-port" := Number(7898), "port" := Number(7899)]
  const PROXY_ON: Table := map["enable_system_proxy" := Bool(true)]
  const STARTED: Table := map["enable_system_proxy" := Bool(true), "verge_mixed_port" := Number(7897)]
  const NEW_PORT: Table := map["mixed-port" := Number(8080)]
  const NEW_PORTS: Table := map["mixed-port" := Number(8080), "socks-port" := Number(7898), "port" := Number(7899)]

  /** An app whose core runs just with the Clash configuration. */
  function Plain(clash: Table, verge: Table): Table { clash }

  lemma StartedTables()
    ensures PORTS["mixed-port" := Number(7897)] == PORTS && PROXY_ON["verge_mixed_port" := Number(7897)] == STARTED
    ensures PORTS + NEW_PORT == NEW_PORTS
    ensures !On(PROXY_ON, "enable_random_port") && !On(STARTED, "enable_random_port") && PortOf(PROXY_ON, PORTS) == 7897
    ensures PortOf(STARTED, PORTS) == 7897 && ProxyOf(STARTED, PORTS) == ProxyOn(7897, None)
    ensures Serves(Some(PORTS), 7897) && !Serves(Some(NEW_PORTS), 7897)
    ensures !On(PORTS, "allow-lan") && HotkeysOf(STARTED) == Items([]) && !On(STARTED, "enable_auto_launch")
  {
    assert "enable_random_port" !in PROXY_ON && "enable_random_port" !in STARTED;
    assert "verge_mixed_port" !in PROXY_ON && "system_proxy_bypass" !in STARTED;
    assert "hotkeys" !in STARTED && "enable_auto_launch" !in STARTED && "allow-lan" !in PORTS;
  }

  /** Right after start-up: everything is settled, and the generated runtime configuration is still a draft. */
  const UP := World(PORTS, STARTED, Some(PORTS), None, PORTS, STARTED, Some(PORTS), Some(PORTS),
                    ProxyOn(7897, None), false, false, Items([]))

  method StartUp() returns (app: App)
    ensures fresh(app) && fresh(app.clash) && fresh(app.verge) && fresh(app.runtime)
    ensures app.Valid() && app.clash.draft.None? && app.verge.draft.None? && app.enhance == Plain
    ensures app.View() == UP && Settled(app.enhance, UP)
  {
    StartedTables();
    app := new App(Plain, PORTS, PROXY_ON);
    hide ProxyOf, PortOf, On, HotkeysOf, Serves;
    var up := app.Launch(None, ALL_WELL);
  }

  lemma NewPortPatch(o: Replies)
    ensures Restarts(NEW_PORT) && !RewritesRuntime(NEW_PORT) && LanPermitted(NEW_PORT, o)
    ensures "mixed-port" in NEW_PORT && "tun" !in NEW_PORT && "allow-lan" !in NEW_PORT
    ensures (PortPermitted(UP, NEW_PORT, o) <==> o.portFree) && NextConfig(Plain, UP, NEW_PORT) == Some(NEW_PORTS)
  {
    StartedTables();
    assert RequestedPort(Number(8080)) == Some(8080);
  }

  /**
   With every foreign call going well and nothing but the core listening, a new port is not let through: the core has
   already left the port at which the proxy is waited for, so the patch is undone.
   */
  method NewPortIsUndone() returns (app: App, r: Outcome)
    ensures fresh(app) && r.Failed?
    ensures app.View() == UP.(kept := Some(PORTS))
  {
    app := StartUp();
    StartedTables();
    NewPortPatch(ALL_WELL);
    hide ProxyOf, PortOf, On, HotkeysOf, Serves, Restarts, RewritesRuntime, LanPermitted, PortPermitted, PatchedRuntime;
    r := app.PatchClash(NEW_PORT, ALL_WELL, ALL_WELL);
  }

  /**
   Where a foreign listener answers on the old port it goes through, and the system proxy leads there, not to the
   core.
   */
  method NewPortBehindForeignListener() returns (app: App, r: Outcome)
    ensures fresh(app) && r.Committed?
    ensures app.clash.data == NEW_PORTS && app.core == Some(NEW_PORTS) && app.proxy == ProxyOn(7897, None)
    ensures !Served(app.View()) && !InStep(app.View())
  {
    app := StartUp();
    StartedTables();
    NewPortPatch(ALL_WELL.(others := {7897}));
    hide ProxyOf, PortOf, On, HotkeysOf, Serves, Restarts, RewritesRuntime, LanPermitted, PortPermitted, PatchedRuntime;
    r := app.PatchClash(NEW_PORT, ALL_WELL.(others := {7897}), ALL_WELL);
  }

  /**
   A patch refused by the port check drops the runtime configuration that start-up generated, and nobody restores it.
   */
  method RefusedPortDropsRuntime() returns (app: App, r: Outcome)
    ensures fresh(app) && r.Failed?
    ensures app.View() == UP.(runtime := None)
  {
    app := StartUp();
    StartedTables();
    NewPortPatch(ALL_WELL.(portFree := false));
    hide ProxyOf, PortOf, On, HotkeysOf, Serves, Restarts, RewritesRuntime, LanPermitted, PortPermitted, PatchedRuntime;
    r := app.PatchClash(NEW_PORT, ALL_WELL.(portFree := false), ALL_WELL);
  }
}
