/** Reading the `ProxyServer` registry value. */
module ProxyServer {
  import opened Wrappers
  import opened Strings

  datatype Endpoint = Endpoint(host: string, port: nat)

  function ParseEndpoint(text: string): Option<Endpoint> {
    var trimmed := Trim(text);
    var endpoint := match Find(trimmed, "://")
      case Some(i) => trimmed[i + 3..]
      case None => trimmed;
    if endpoint != [] && endpoint[0] == '[' then ParseBracketed(endpoint[1..]) else ParsePlain(endpoint)
  }

  /** `host:port`, cut at the last colon. */
  function ParsePlain(endpoint: string): Option<Endpoint> {
    match LastIndexOf(endpoint, ':')
    case None => None
    case Some(i) =>
      var host := Trim(endpoint[..i]);
      if host == [] || ':' in host then None
      else match ParseU16(Trim(endpoint[i + 1..]))
        case None => None
        case Some(port) => if port != 0 then Some(Endpoint(host, port)) else None
  }

  /** `[v6]:port`, after the opening bracket. */
  function ParseBracketed(ipv6: string): Option<Endpoint> {
    match IndexOf(ipv6, ']')
    case None => None
    case Some(i) =>
      var host := Trim(ipv6[..i]);
      var rest := ipv6[i + 1..];
      if rest == [] || rest[0] != ':' then None
      else match ParseU16(rest[1..])
        case None => None
        case Some(port) => if host != [] && port != 0 then Some(Endpoint(host, port)) else None
  }

  function Entries(server: string): seq<string> { NonEmpty(Split(server, ';')) }

  function NonEmpty(parts: seq<string>): seq<string> {
    if parts == [] then []
    else (if Trim(parts[0]) == [] then [] else [Trim(parts[0])]) + NonEmpty(parts[1..])
  }

  /** The endpoint of an entry `protocol=endpoint`. */
  function EntryFor(entry: string, protocol: string): Option<Endpoint> {
    match IndexOf(entry, '=')
    case None => None
    case Some(i) => if EqIgnoreAsciiCase(Trim(entry[..i]), protocol) then ParseEndpoint(entry[i + 1..]) else None
  }

  /** First entry for the protocol that parses. */
  function FirstFor(entries: seq<string>, protocol: string): Option<Endpoint> {
    if entries == [] then None
    else if EntryFor(entries[0], protocol).Some? then EntryFor(entries[0], protocol)
    else FirstFor(entries[1..], protocol)
  }

  /** First entry without a protocol that parses. */
  function FirstPlain(entries: seq<string>): Option<Endpoint> {
    if entries == [] then None
    else
      var here := if '=' in entries[0] then None else ParseEndpoint(entries[0]);
      if here.Some? then here else FirstPlain(entries[1..])
  }

  function ParseServer(server: string): Option<Endpoint> {
    var entries := Entries(server);
    if FirstFor(entries, "http").Some? then FirstFor(entries, "http")
    else if FirstFor(entries, "https").Some? then FirstFor(entries, "https")
    else if FirstFor(entries, "socks").Some? then FirstFor(entries, "socks")
    else FirstPlain(entries)
  }

  /** The `host:port` text that the app writes. */
  function ServerText(host: string, port: nat): string { host + ":" + Decimal(port) }

  /** Hosts that survive the trip through `ProxyServer`. */
  predicate PlainHost(host: string) {
    && host != [] && Trimmed(host) && host[0] != '['
    && ';' !in host && '=' !in host && ':' !in host
  }

  lemma NumbersAreTrimmed(port: nat)
    ensures Trim(Decimal(port)) == Decimal(port)
    ensures forall c :: c in Decimal(port) ==> IsDigit(c)
  {
    var s := Decimal(port);
    assert s[0] in s && s[|s| - 1] in s;
    TrimKeepsTrimmed(s);
  }

  lemma ColonIsTheSeparator(host: string, port: nat)
    requires ':' !in host
    ensures var text := ServerText(host, port); forall k :: 0 <= k < |text| ==> (text[k] == ':' <==> k == |host|)
    ensures LastIndexOf(ServerText(host, port), ':') == Some(|host|)
  {
    var text := ServerText(host, port);
    forall k | 0 <= k < |text| ensures text[k] == ':' <==> k == |host| {
      if k > |host| {
        assert text[k] == Decimal(port)[k - |host| - 1];
        assert text[k] in Decimal(port);
      }
    }
    assert text[|host|] == ':';
  }

  lemma NoColonSlash(text: string, at: nat)
    requires forall k :: 0 <= k < |text| ==> (text[k] == ':' <==> k == at)
    requires at + 1 < |text| && text[at + 1] != '/'
    ensures Find(text, "://") == None
  {
    hide Find;
    forall i: nat ensures !OccursAt("://", text, i) {
      if i + 3 <= |text| {
        assert text[i..i + 3][0] == text[i] && text[i..i + 3][1] == text[i + 1];
      }
    }
  }

  lemma AfterTheColon(host: string, port: nat)
    ensures var text := ServerText(host, port); |host| + 1 < |text| && text[|host| + 1] != '/'
  {
    var digits := Decimal(port);
    hide Decimal;
    assert ServerText(host, port)[|host| + 1] == digits[0] && digits[0] in digits;
  }

  lemma NoSchemeInside(host: string, port: nat)
    requires ':' !in host
    ensures Find(ServerText(host, port), "://") == None
  {
    hide Find, OccursAt, Decimal, ServerText;
    ColonIsTheSeparator(host, port);
    AfterTheColon(host, port);
    NoColonSlash(ServerText(host, port), |host|);
  }

  lemma PartsReadBack(text: string, host: string, digits: string, port: nat)
    requires Trim(host) == host && Trim(digits) == digits && LastIndexOf(text, ':') == Some(|host|)
    requires |host| < |text| && text[..|host|] == host && text[|host| + 1..] == digits
    requires host != [] && ':' !in host && ParseU16(digits) == Some(port) && port != 0
    ensures ParsePlain(text) == Some(Endpoint(host, port))
  {
    hide Trim, LastIndexOf, ParseU16;
  }

  lemma ServerTextIsTrimmed(host: string, port: nat)
    requires PlainHost(host)
    ensures Trim(ServerText(host, port)) == ServerText(host, port) && Trim(Decimal(port)) == Decimal(port)
    ensures Trim(host) == host
  {
    var text := ServerText(host, port);
    NumbersAreTrimmed(port);
    assert text[0] == host[0] && text[|text| - 1] in Decimal(port);
    TrimKeepsTrimmed(text);
    TrimKeepsTrimmed(host);
    assert Decimal(port)[0] in Decimal(port);
  }

  lemma PortReadsBack(port: nat)
    requires port < 0x1_0000
    ensures ParseU16(Decimal(port)) == Some(port)
  {
    DecimalReadsBack(port);
    NumbersAreTrimmed(port);
    assert Decimal(port)[0] in Decimal(port);
  }

  lemma EndpointReadsBack(host: string, port: nat)
    requires 0 < port < 0x1_0000 && PlainHost(host)
    ensures Trim(ServerText(host, port)) == ServerText(host, port)
    ensures ParseEndpoint(ServerText(host, port)) == Some(Endpoint(host, port))
  {
    hide ParsePlain, ParseBracketed, Trim, Find, Decimal, LastIndexOf, ParseU16;
    var text := ServerText(host, port);
    ServerTextIsTrimmed(host, port);
    NoSchemeInside(host, port);
    ColonIsTheSeparator(host, port);
    PortReadsBack(port);
    assert text[..|host|] == host && text[|host| + 1..] == Decimal(port);
    assert text[0] == host[0];
    PartsReadBack(text, host, Decimal(port), port);
  }

  /** A plain host and a nonzero port are read back as they were written. */
  lemma ServerTextReadsBack(host: string, port: nat)
    requires 0 < port < 0x1_0000 && PlainHost(host)
    ensures ParseServer(ServerText(host, port)) == Some(Endpoint(host, port))
  {
    hide ParseEndpoint;
    var text := ServerText(host, port);
    EndpointReadsBack(host, port);
    NumbersAreTrimmed(port);
    assert ';' !in text && '=' !in text;
    SplitWithout(text, ';');
    assert [text][1..] == [];
    assert NonEmpty([text]) == [text];
    assert IndexOf(text, '=') == None;
    assert forall p :: EntryFor(text, p) == None;
    assert FirstFor([text], "http") == FirstFor([], "http");
    assert FirstFor([text], "https") == FirstFor([], "https");
    assert FirstFor([text], "socks") == FirstFor([], "socks");
  }

  /** What the system reports: no endpoint is read while the proxy is off. */
  function ResolveEndpoint(enable: bool, server: string): Option<Endpoint> {
    if enable then ParseServer(server) else Some(Endpoint("", 0))
  }
}
