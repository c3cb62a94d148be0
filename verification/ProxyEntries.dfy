/** Which entry of a `ProxyServer` value counts. */
module ProxyEntries {
  import opened Wrappers
  import opened Strings
  import opened ProxyServer

  datatype Kind = Http | Https | Socks | Plain

  function Protocol(kind: Kind): string {
    match kind
    case Http => "http"
    case Https => "https"
    case Socks => "socks"
    case Plain => ""
  }

  /** An entry for one endpoint, with its protocol in front unless it is for all of them. */
  function EntryText(kind: Kind, host: string, port: nat): string {
    if kind.Plain? then ServerText(host, port) else Protocol(kind) + "=" + ServerText(host, port)
  }

  /** Smaller counts first. */
  function Rank(kind: Kind): nat {
    match kind
    case Http => 0
    case Https => 1
    case Socks => 2
    case Plain => 3
  }

  lemma {:induction false} SplitAtFirst(a: string, c: char, b: string)
    requires c !in a
    ensures Split(a + [c] + b, c) == [a] + Split(b, c)
  {
    var whole := a + [c] + b;
    if a == [] {
      assert whole[1..] == b;
    } else {
      SplitAtFirst(a[1..], c, b);
      assert whole[1..] == a[1..] + [c] + b;
      assert [a[0]] + a[1..] == a;
      assert ([a[1..]] + Split(b, c))[1..] == Split(b, c);
    }
  }

  lemma TextHasNone(host: string, port: nat)
    requires PlainHost(host)
    ensures ';' !in ServerText(host, port) && '=' !in ServerText(host, port)
  {
    NumbersAreTrimmed(port);
  }

  lemma EntryIsTrimmed(kind: Kind, host: string, port: nat)
    requires PlainHost(host)
    ensures var t := EntryText(kind, host, port); t != [] && Trim(t) == t && ';' !in t
  {
    var s, t := ServerText(host, port), EntryText(kind, host, port);
    TextHasNone(host, port);
    ServerTextIsTrimmed(host, port);
    NumbersAreTrimmed(port);
    assert s[|s| - 1] in Decimal(port);
    assert t[|t| - 1] == s[|s| - 1];
    if !kind.Plain? {
      assert t[0] == Protocol(kind)[0];
      TrimKeepsTrimmed(t);
    }
  }

  lemma ProtocolText(kind: Kind)
    requires !kind.Plain?
    ensures Trim(Protocol(kind)) == Protocol(kind) && '=' !in Protocol(kind)
  {
    TrimKeepsTrimmed(Protocol(kind));
  }

  lemma {:induction false} FirstIs(s: string, c: char, i: nat)
    requires i < |s| && s[i] == c && c !in s[..i]
    ensures IndexOf(s, c) == Some(i)
  {
    if i > 0 {
      assert s[0] in s[..i];
      assert s[1..][..i - 1] == s[..i][1..];
      FirstIs(s[1..], c, i - 1);
    }
  }

  lemma FirstEquals(p: string, s: string)
    requires '=' !in p
    ensures IndexOf(p + "=" + s, '=') == Some(|p|)
    ensures (p + "=" + s)[..|p|] == p && (p + "=" + s)[|p| + 1..] == s
  {
    FirstIs(p + "=" + s, '=', |p|);
  }

  lemma ProtocolsDiffer(kind: Kind, asked: Kind)
    ensures EqIgnoreAsciiCase(Protocol(kind), Protocol(asked)) <==> kind == asked
  {
    assert Protocol(Http)[0] != Protocol(Socks)[0];
  }

  /** What an entry answers for a protocol, and without one. */
  lemma EntryAnswers(kind: Kind, asked: Kind, host: string, port: nat)
    requires PlainHost(host) && 0 < port < 0x1_0000 && !asked.Plain?
    ensures var t := EntryText(kind, host, port);
      && EntryFor(t, Protocol(asked)) == (if kind == asked then Some(Endpoint(host, port)) else None)
      && ('=' in t <==> !kind.Plain?)
      && (kind.Plain? ==> ParseEndpoint(t) == Some(Endpoint(host, port)))
  {
    TextHasNone(host, port);
    EndpointReadsBack(host, port);
    ProtocolsDiffer(kind, asked);
    if kind.Plain? {
      hide ParseEndpoint, ServerText, Trim, PlainHost, Protocol, EqIgnoreAsciiCase;
      assert IndexOf(ServerText(host, port), '=') == None;
    } else {
      ProtocolText(kind);
      FirstEquals(Protocol(kind), ServerText(host, port));
      hide ParseEndpoint, ServerText, Trim, PlainHost, Protocol, EqIgnoreAsciiCase, IndexOf;
      assert EntryText(kind, host, port)[|Protocol(kind)|] == '=';
    }
  }

  lemma TwoEntries(a: string, b: string)
    requires ';' !in a && ';' !in b && a != [] && b != [] && Trim(a) == a && Trim(b) == b
    ensures Entries(a + ";" + b) == [a, b]
  {
    hide Trim;
    SplitAtFirst(a, ';', b);
    SplitWithout(b, ';');
    hide Split;
    assert [a] + [b] == [a, b] && [a, b][1..] == [b] && [b][1..] == [];
    assert NonEmpty([b]) == [b];
  }

  lemma FirstOfTwo(a: string, b: string, protocol: string)
    ensures FirstFor([a, b], protocol) ==
            if EntryFor(a, protocol).Some? then EntryFor(a, protocol) else EntryFor(b, protocol)
  {
    hide EntryFor;
    assert [a, b][1..] == [b] && [b][1..] == [];
    assert FirstFor([b], protocol) ==
      if EntryFor(b, protocol).Some? then EntryFor(b, protocol) else FirstFor([], protocol);
  }

  lemma PlainOfTwo(a: string, b: string)
    requires '=' in a || ParseEndpoint(a).Some?
    requires '=' in b || ParseEndpoint(b).Some?
    ensures FirstPlain([a, b]) ==
            if '=' !in a then ParseEndpoint(a) else if '=' !in b then ParseEndpoint(b) else None
  {
    hide ParseEndpoint;
    assert [a, b][1..] == [b] && [b][1..] == [];
    assert FirstPlain([b]) == if '=' !in b then ParseEndpoint(b) else FirstPlain([]);
  }

  /** Of two entries the HTTP one counts, else HTTPS, else SOCKS, else the one for all; of equals, the first. */
  lemma PriorityOfEntries(k: Kind, host: string, port: nat, k': Kind, host': string, port': nat)
    requires PlainHost(host) && 0 < port < 0x1_0000 && PlainHost(host') && 0 < port' < 0x1_0000
    ensures ParseServer(EntryText(k, host, port) + ";" + EntryText(k', host', port')) ==
            Some(if Rank(k') < Rank(k) then Endpoint(host', port') else Endpoint(host, port))
  {
    var a, b := EntryText(k, host, port), EntryText(k', host', port');
    EntryIsTrimmed(k, host, port);
    EntryIsTrimmed(k', host', port');
    TwoEntries(a, b);
    EntryAnswers(k, Http, host, port);
    EntryAnswers(k, Https, host, port);
    EntryAnswers(k, Socks, host, port);
    EntryAnswers(k', Http, host', port');
    EntryAnswers(k', Https, host', port');
    EntryAnswers(k', Socks, host', port');
    FirstOfTwo(a, b, "http");
    FirstOfTwo(a, b, "https");
    FirstOfTwo(a, b, "socks");
    PlainOfTwo(a, b);
    hide Entries, EntryFor, FirstFor, FirstPlain, EntryText, ParseEndpoint;
  }

  /** A value with one entry for a protocol is read by that entry. */
  lemma OneEntry(k: Kind, host: string, port: nat)
    requires PlainHost(host) && 0 < port < 0x1_0000
    ensures ParseServer(EntryText(k, host, port)) == Some(Endpoint(host, port))
  {
    var a := EntryText(k, host, port);
    EntryIsTrimmed(k, host, port);
    EntryAnswers(k, Http, host, port);
    EntryAnswers(k, Https, host, port);
    EntryAnswers(k, Socks, host, port);
    SplitWithout(a, ';');
    hide Trim, EntryFor, EntryText, ParseEndpoint, Split;
    assert [a][1..] == [];
    assert NonEmpty([a]) == [a];
    assert FirstFor([a], "http") == if EntryFor(a, "http").Some? then EntryFor(a, "http") else FirstFor([], "http");
    assert FirstFor([a], "https") == if EntryFor(a, "https").Some? then EntryFor(a, "https") else FirstFor([], "https");
    assert FirstFor([a], "socks") == if EntryFor(a, "socks").Some? then EntryFor(a, "socks") else FirstFor([], "socks");
  }
}
