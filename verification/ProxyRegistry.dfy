/** The user-scoped Windows proxy registry values, their snapshot, and the recovery journal. */
module ProxyRegistry {
  import opened Wrappers
  import opened Strings
  import opened ProxyServer

  /** A raw registry value, as far as the typed readers tell values apart. */
  datatype RawValue = Dword(value: nat) | Text(text: string) | Raw(bytes: seq<nat>, kind: nat)

  datatype Field =
    | ProxyEnable | ProxyServer | ProxyOverride | AutoConfigURL | AutoDetect
    | DefaultConnectionSettings | SavedLegacySettings

  /** The exact state of the values. The registry itself is in such a state at any time. */
  datatype Snapshot = Snapshot(
    connectionsExisted: bool,
    proxyEnable: Option<RawValue>,
    proxyServer: Option<RawValue>,
    proxyOverride: Option<RawValue>,
    autoConfigUrl: Option<RawValue>,
    autoDetect: Option<RawValue>,
    defaultConnection: Option<RawValue>,
    savedLegacy: Option<RawValue>)
  {
    function Get(field: Field): Option<RawValue> {
      match field
      case ProxyEnable => proxyEnable
      case ProxyServer => proxyServer
      case ProxyOverride => proxyOverride
      case AutoConfigURL => autoConfigUrl
      case AutoDetect => autoDetect
      case DefaultConnectionSettings => defaultConnection
      case SavedLegacySettings => savedLegacy
    }

    /** A missing Connections key has no values. */
    predicate WellFormed() {
      !connectionsExisted ==> defaultConnection.None? && savedLegacy.None?
    }
  }

  // ----- the proxy as the system reports it

  datatype Sysproxy = Sysproxy(enable: bool, host: string, port: nat, bypass: string)

  function TextOf(value: Option<RawValue>): string {
    if value.Some? && value.value.Text? then value.value.text else ""
  }

  function SystemProxy(s: Snapshot): Option<Sysproxy> {
    var enable := s.proxyEnable == Some(Dword(1));
    match ResolveEndpoint(enable, TextOf(s.proxyServer))
    case None => None
    case Some(e) => Some(Sysproxy(enable, e.host, e.port, TextOf(s.proxyOverride)))
  }

  /** `is_sysproxy_match`: two disabled proxies always match. */
  predicate Matches(actual: Sysproxy, expected: Sysproxy) {
    && actual.enable == expected.enable
    && (expected.enable ==>
          && EqIgnoreAsciiCase(actual.host, expected.host)
          && actual.port == expected.port
          && actual.bypass == expected.bypass)
  }

  /** `proxy_matches` of the recovery code compares the endpoint of disabled proxies as well. */
  predicate MatchesExactly(actual: Sysproxy, expected: Sysproxy) {
    && actual.enable == expected.enable
    && EqIgnoreAsciiCase(actual.host, expected.host)
    && actual.port == expected.port
    && actual.bypass == expected.bypass
  }

  predicate Shows(s: Snapshot, target: Sysproxy) {
    SystemProxy(s).Some? && Matches(SystemProxy(s).value, target)
  }

  /** `set_registry_proxy` as one transaction. */
  function RegistryProxySet(s: Snapshot, proxy: Sysproxy): Snapshot {
    if proxy.enable then
      s.(proxyEnable := Some(Dword(1)),
         proxyServer := Some(Text(ServerText(proxy.host, proxy.port))),
         proxyOverride := Some(Text(proxy.bypass)),
         autoConfigUrl := None)
    else s.(proxyEnable := Some(Dword(0)))
  }

  /** Targets the app asks for: its own listener, or no proxy. */
  predicate Sensible(target: Sysproxy) {
    target.enable ==> PlainHost(target.host) && 0 < target.port < 0x1_0000
  }

  /** The registry fallback shows what was asked for, whatever was there before. */
  lemma FallbackShowsTarget(s: Snapshot, target: Sysproxy)
    requires Sensible(target)
    ensures Shows(RegistryProxySet(s, target), target)
    ensures s.WellFormed() ==> RegistryProxySet(s, target).WellFormed()
  {
    if target.enable {
      ServerTextReadsBack(target.host, target.port);
    }
  }

  /** What it takes for a registry to show a proxy, when the server is a plain one. */
  lemma ShowsExactly(s: Snapshot, host: string, port: nat, target: Sysproxy)
    requires PlainHost(host) && 0 < port < 0x1_0000 && s.proxyServer == Some(Text(ServerText(host, port)))
    ensures s.proxyEnable == Some(Dword(1)) ==>
              (Shows(s, target) <==>
                 && target.enable && EqIgnoreAsciiCase(host, target.host) && port == target.port
                 && (if s.proxyOverride.Some? && s.proxyOverride.value.Text? then s.proxyOverride.value.text else "")
                    == target.bypass)
    ensures s.proxyEnable != Some(Dword(1)) ==> (Shows(s, target) <==> !target.enable)
  {
    ServerTextReadsBack(host, port);
    hide ParseServer, ServerText;
  }

  // ----- a snapshot inside a key: values plus a mask of those that are meant

  type Values = map<string, RawValue>

  function Bit(field: Field): nat {
    match field
    case ProxyEnable => 1
    case ProxyServer => 2
    case ProxyOverride => 4
    case AutoConfigURL => 8
    case AutoDetect => 16
    case DefaultConnectionSettings => 32
    case SavedLegacySettings => 64
  }

  function Name(field: Field): string {
    match field
    case ProxyEnable => "ProxyEnable"
    case ProxyServer => "ProxyServer"
    case ProxyOverride => "ProxyOverride"
    case AutoConfigURL => "AutoConfigURL"
    case AutoDetect => "AutoDetect"
    case DefaultConnectionSettings => "DefaultConnectionSettings"
    case SavedLegacySettings => "SavedLegacySettings"
  }

  function BitOf(mask: nat, weight: nat): nat
    requires weight > 0
  {
    mask / weight % 2
  }

  predicate HasBit(mask: nat, field: Field) { BitOf(mask, Bit(field)) == 1 }

  function BitIf(s: Snapshot, field: Field): nat { if s.Get(field).Some? then Bit(field) else 0 }

  function MaskOf(s: Snapshot): nat {
    BitIf(s, ProxyEnable) + BitIf(s, ProxyServer) + BitIf(s, ProxyOverride) + BitIf(s, AutoConfigURL)
    + BitIf(s, AutoDetect) + BitIf(s, DefaultConnectionSettings) + BitIf(s, SavedLegacySettings)
  }

  function Put(values: Values, s: Snapshot, field: Field): Values {
    if s.Get(field).Some? then values[Name(field) := s.Get(field).value] else values
  }

  function PutAll(values: Values, s: Snapshot): Values {
    var v1 := Put(values, s, ProxyEnable);
    var v2 := Put(v1, s, ProxyServer);
    var v3 := Put(v2, s, ProxyOverride);
    var v4 := Put(v3, s, AutoConfigURL);
    var v5 := Put(v4, s, AutoDetect);
    var v6 := Put(v5, s, DefaultConnectionSettings);
    Put(v6, s, SavedLegacySettings)
  }

  /** Absent values are not deleted from the key: an older snapshot's leftovers stay in it. */
  function Written(values: Values, s: Snapshot): Values {
    PutAll(values, s)
      ["PresentMask" := Dword(MaskOf(s))]
      ["ConnectionsExisted" := Dword(if s.connectionsExisted then 1 else 0)]
  }

  datatype Read<+T> = Ok(value: T) | Failed

  function ReadDword(values: Values, name: string): Read<nat> {
    if name in values && values[name].Dword? then Ok(values[name].value) else Failed
  }

  function ReadText(values: Values, name: string): Read<string> {
    if name in values && values[name].Text? then Ok(values[name].text) else Failed
  }

  function ReadField(values: Values, mask: nat, field: Field): Read<Option<RawValue>> {
    if !HasBit(mask, field) then Ok(None)
    else if Name(field) in values then Ok(Some(values[Name(field)]))
    else Failed
  }

  function ReadSnapshot(values: Values): Read<Snapshot> {
    var mask := ReadDword(values, "PresentMask");
    var existed := ReadDword(values, "ConnectionsExisted");
    if mask.Failed? || existed.Failed? then Failed
    else if exists f: Field :: ReadField(values, mask.value, f).Failed? then Failed
    else Ok(Snapshot(
      existed.value == 1,
      ReadField(values, mask.value, ProxyEnable).value,
      ReadField(values, mask.value, ProxyServer).value,
      ReadField(values, mask.value, ProxyOverride).value,
      ReadField(values, mask.value, AutoConfigURL).value,
      ReadField(values, mask.value, AutoDetect).value,
      ReadField(values, mask.value, DefaultConnectionSettings).value,
      ReadField(values, mask.value, SavedLegacySettings).value))
  }

  class RegKey {
    var values: Values

    constructor (values: Values)
      ensures this.values == values
    {
      this.values := values;
    }

    /** `write_snapshot_value`: sets a present value and its bit, leaves an absent one as it is. */
    method WriteSnapshotValue(s: Snapshot, field: Field, mask: nat) returns (mask': nat)
      modifies this
      ensures values == Put(old(values), s, field)
      ensures mask' == mask + BitIf(s, field)
    {
      mask' := mask;
      if s.Get(field).Some? {
        values := values[Name(field) := s.Get(field).value];
        mask' := mask + Bit(field);
      }
    }

    /** `write_snapshot` into a key that may hold an older snapshot. */
    method WriteSnapshot(s: Snapshot)
      modifies this
      ensures values == Written(old(values), s)
      ensures ReadSnapshot(values) == Ok(s)
    {
      hide Put, BitIf, Name, ReadSnapshot;
      var mask := 0;
      mask := WriteSnapshotValue(s, ProxyEnable, mask);
      mask := WriteSnapshotValue(s, ProxyServer, mask);
      mask := WriteSnapshotValue(s, ProxyOverride, mask);
      mask := WriteSnapshotValue(s, AutoConfigURL, mask);
      mask := WriteSnapshotValue(s, AutoDetect, mask);
      mask := WriteSnapshotValue(s, DefaultConnectionSettings, mask);
      mask := WriteSnapshotValue(s, SavedLegacySettings, mask);
      values := values["PresentMask" := Dword(mask)];
      values := values["ConnectionsExisted" := Dword(if s.connectionsExisted then 1 else 0)];
      ReadInvertsWritten(old(values), s);
    }
  }

  // ----- the mask tells exactly which values are meant

  lemma Bit1(low: nat, b: nat, high: nat)
    requires low < 1 && b <= 1
    ensures BitOf(low + 1 * b + 2 * high, 1) == b
  {
  }

  lemma Bit2(low: nat, b: nat, high: nat)
    requires low < 2 && b <= 1
    ensures BitOf(low + 2 * b + 4 * high, 2) == b
  {
  }

  lemma Bit4(low: nat, b: nat, high: nat)
    requires low < 4 && b <= 1
    ensures BitOf(low + 4 * b + 8 * high, 4) == b
  {
  }

  lemma Bit8(low: nat, b: nat, high: nat)
    requires low < 8 && b <= 1
    ensures BitOf(low + 8 * b + 16 * high, 8) == b
  {
  }

  lemma Bit16(low: nat, b: nat, high: nat)
    requires low < 16 && b <= 1
    ensures BitOf(low + 16 * b + 32 * high, 16) == b
  {
  }

  lemma Bit32(low: nat, b: nat, high: nat)
    requires low < 32 && b <= 1
    ensures BitOf(low + 32 * b + 64 * high, 32) == b
  {
  }

  lemma Bit64(low: nat, b: nat, high: nat)
    requires low < 64 && b <= 1
    ensures BitOf(low + 64 * b + 128 * high, 64) == b
  {
  }

  function Present(s: Snapshot, field: Field): nat { if s.Get(field).Some? then 1 else 0 }

  lemma MaskExact(s: Snapshot, field: Field)
    ensures HasBit(MaskOf(s), field) <==> s.Get(field).Some?
  {
    hide BitOf;
    var b0 := Present(s, ProxyEnable);
    var b1 := Present(s, ProxyServer);
    var b2 := Present(s, ProxyOverride);
    var b3 := Present(s, AutoConfigURL);
    var b4 := Present(s, AutoDetect);
    var b5 := Present(s, DefaultConnectionSettings);
    var b6 := Present(s, SavedLegacySettings);
    assert MaskOf(s) == b0 + 2 * b1 + 4 * b2 + 8 * b3 + 16 * b4 + 32 * b5 + 64 * b6;
    match field
    case ProxyEnable => Bit1(0, b0, b1 + 2 * b2 + 4 * b3 + 8 * b4 + 16 * b5 + 32 * b6);
    case ProxyServer => Bit2(b0, b1, b2 + 2 * b3 + 4 * b4 + 8 * b5 + 16 * b6);
    case ProxyOverride => Bit4(b0 + 2 * b1, b2, b3 + 2 * b4 + 4 * b5 + 8 * b6);
    case AutoConfigURL => Bit8(b0 + 2 * b1 + 4 * b2, b3, b4 + 2 * b5 + 4 * b6);
    case AutoDetect => Bit16(b0 + 2 * b1 + 4 * b2 + 8 * b3, b4, b5 + 2 * b6);
    case DefaultConnectionSettings => Bit32(b0 + 2 * b1 + 4 * b2 + 8 * b3 + 16 * b4, b5, b6);
    case SavedLegacySettings => Bit64(b0 + 2 * b1 + 4 * b2 + 8 * b3 + 16 * b4 + 32 * b5, b6, 0);
  }

  lemma NamesDiffer(a: Field, b: Field)
    ensures a != b ==> Name(a) != Name(b)
    ensures Name(a) != "PresentMask" && Name(a) != "ConnectionsExisted"
  {
  }

  lemma PutKeepsOthers(values: Values, s: Snapshot, field: Field, other: Field)
    ensures other != field ==>
              (Name(other) in Put(values, s, field) <==> Name(other) in values)
              && (Name(other) in values ==> Put(values, s, field)[Name(other)] == values[Name(other)])
    ensures s.Get(field).Some? ==>
              Name(field) in Put(values, s, field) && Put(values, s, field)[Name(field)] == s.Get(field).value
  {
    NamesDiffer(field, other);
  }

  lemma PutAllPuts(values: Values, s: Snapshot, field: Field)
    requires s.Get(field).Some?
    ensures Name(field) in PutAll(values, s) && PutAll(values, s)[Name(field)] == s.Get(field).value
  {
    hide Put, Name;
    var v1 := Put(values, s, ProxyEnable);
    var v2 := Put(v1, s, ProxyServer);
    var v3 := Put(v2, s, ProxyOverride);
    var v4 := Put(v3, s, AutoConfigURL);
    var v5 := Put(v4, s, AutoDetect);
    var v6 := Put(v5, s, DefaultConnectionSettings);
    PutKeepsOthers(values, s, ProxyEnable, field);
    PutKeepsOthers(v1, s, ProxyServer, field);
    PutKeepsOthers(v2, s, ProxyOverride, field);
    PutKeepsOthers(v3, s, AutoConfigURL, field);
    PutKeepsOthers(v4, s, AutoDetect, field);
    PutKeepsOthers(v5, s, DefaultConnectionSettings, field);
    PutKeepsOthers(v6, s, SavedLegacySettings, field);
  }

  lemma FieldReadsBack(values: Values, s: Snapshot, field: Field)
    ensures ReadField(Written(values, s), MaskOf(s), field) == Ok(s.Get(field))
  {
    hide PutAll, MaskOf, HasBit;
    MaskExact(s, field);
    NamesDiffer(field, field);
    if s.Get(field).Some? {
      PutAllPuts(values, s, field);
    }
  }

  /** A snapshot written over any older contents is read back exactly: leftovers are masked out. */
  lemma ReadInvertsWritten(values: Values, s: Snapshot)
    ensures ReadSnapshot(Written(values, s)) == Ok(s)
  {
    hide PutAll, MaskOf, ReadField;
    var written := Written(values, s);
    assert ReadDword(written, "PresentMask") == Ok(MaskOf(s));
    forall f: Field ensures ReadField(written, MaskOf(s), f) == Ok(s.Get(f)) {
      FieldReadsBack(values, s, f);
    }
  }
}
