/** Remote endpoints as the collector prints them (`address:port`) and as the query takes them apart. */
module Endpoint {
  import opened Model
  import opened Decimal
  import opened Text
  import IpGrammar
  import NetworkUtils

  /** TimelineEventCollector::formatEndpoint. */
  function FormatEndpoint(address: string, port: uint16): string {
    if address == "" then ""
    else if port != 0 then address + ":" + Digits(port)
    else address
  }

  predicate AllDigits(s: string) {
    forall c | c in s :: IsDigit(c)
  }

  /** TimelineQuery::hostFromEndpoint. */
  function Host(endpoint: string): string {
    if endpoint == "" then ""
    else if endpoint[0] == '[' then
      match FindChar(endpoint, ']')
      case None => endpoint
      case Some(closing) => endpoint[1..closing]
    else
      match FindLast(endpoint, ':')
      case None => endpoint
      case Some(colon) =>
        var maybePort := endpoint[colon + 1..];
        if maybePort != "" && AllDigits(maybePort) then endpoint[..colon] else endpoint
  }

  /** The scan of the presumed port. */
  method HostFromEndpoint(endpoint: string) returns (host: string)
    ensures host == Host(endpoint)
  {
    if endpoint == "" {
      return "";
    }
    if endpoint[0] == '[' {
      var closing := FindChar(endpoint, ']');
      if closing.Some? {
        return endpoint[1..closing.value];
      }
      return endpoint;
    }
    var colon := FindLast(endpoint, ':');
    if colon.None? {
      return endpoint;
    }
    var maybeHost, maybePort := endpoint[..colon.value], endpoint[colon.value + 1..];
    if maybePort == "" {
      return endpoint;
    }
    for i := 0 to |maybePort|
      invariant AllDigits(maybePort[..i])
    {
      if !IsDigit(maybePort[i]) {
        assert maybePort[i] in maybePort;
        return endpoint;
      }
    }
    assert maybePort[..|maybePort|] == maybePort;
    return maybeHost;
  }

  // ----- What is printed

  /** `s` spells out the address, and behind a colon the port unless it is zero; for an empty address it
  is empty. */
  ghost predicate SpellsOut(s: string, address: string, port: uint16) {
    if address == "" then s == ""
    else if port == 0 then s == address
    else
      && |address| + 1 < |s| && s[..|address|] == address && s[|address|] == ':'
      && var number := s[|address| + 1..]; AllDigits(number) && number[0] != '0' && Value(number) == port
  }

  lemma {:induction false} FormatSpellsOut(address: string, port: uint16)
    ensures SpellsOut(FormatEndpoint(address, port), address, port)
  {
    if address != "" && port != 0 {
      var s := FormatEndpoint(address, port);
      assert s[..|address|] == address && s[|address| + 1..] == Digits(port);
      ValueOfDigits(port);
      NoLeadingZero(port);
    }
  }

  /** The host in all cases: the piece in closed brackets at the front, or else what stands before a
  trailing colon and number, or else everything. */
  lemma {:induction false} HostIs(s: string)
    ensures s != "" && s[0] == '[' && ']' in s ==>
      exists rest :: s == "[" + Host(s) + "]" + rest && ']' !in Host(s)
    ensures s != "" && s[0] != '[' && EndsInPort(s) ==>
      exists i :: 0 <= i < |s| && PortAt(s, i) && Host(s) == s[..i]
    ensures !(s != "" && s[0] == '[' && ']' in s) && !(s != "" && s[0] != '[' && EndsInPort(s)) ==> Host(s) == s
  {
    HostUnchanged(s);
    if s != "" && s[0] == '[' && ']' in s {
      var closing := FindChar(s, ']').value;
      var host, rest := s[1..closing], s[closing + 1..];
      assert s[..1] == "[" && s[closing..closing + 1] == "]" && ']' !in host by {
        assert host == s[..closing][1..];
      }
      assert s == s[..1] + host + s[closing..closing + 1] + rest;
      assert Host(s) == host;
      assert s == "[" + Host(s) + "]" + rest;
    } else if s != "" && s[0] != '[' && EndsInPort(s) {
      var i :| 0 <= i < |s| && PortAt(s, i);
      HostBeforePort(s, i);
    }
  }

  // ----- Round trip

  /** The endpoint ends in a colon and a number. */
  predicate EndsInPort(s: string) {
    exists i | 0 <= i < |s| :: PortAt(s, i)
  }

  predicate PortAt(s: string, i: nat)
    requires i < |s|
  {
    s[i] == ':' && i + 1 < |s| && AllDigits(s[i + 1..])
  }

  /** A number holds no colon, so there is only one place where it can start. */
  lemma {:induction false} HostBeforePort(s: string, i: nat)
    requires s != "" && s[0] != '[' && i < |s| && PortAt(s, i)
    ensures Host(s) == s[..i]
  {
    var tail := s[i + 1..];
    forall j | i < j < |s| ensures s[j] != ':' {
      assert s[j] == tail[j - i - 1] && tail[j - i - 1] in tail;
    }
    var last := FindLast(s, ':').value;
    assert last <= i;
    assert s[i] in s[i..];
  }

  /** Without a bracket or a trailing number an endpoint is its own host, and only then. */
  lemma {:induction false} HostUnchanged(s: string)
    ensures Host(s) == s <==> !(s != "" && s[0] == '[' && ']' in s) && !(s != "" && s[0] != '[' && EndsInPort(s))
  {
    if s != "" && s[0] != '[' {
      if EndsInPort(s) {
        var i :| 0 <= i < |s| && PortAt(s, i);
        HostBeforePort(s, i);
      } else if FindLast(s, ':').Some? {
        var last := FindLast(s, ':').value;
        assert !PortAt(s, last);
      }
    }
  }

  /** For a non-zero port and a non-empty address, taking the printed endpoint apart gives back the
  address exactly when it does not start with a bracket. */
  lemma {:induction false} EndpointRoundTrip(address: string, port: uint16)
    requires address != "" && port != 0
    ensures Host(FormatEndpoint(address, port)) == address <==> address[0] != '['
  {
    var s := FormatEndpoint(address, port);
    assert s[..|address|] == address && s[|address| + 1..] == Digits(port);
    if address[0] != '[' {
      assert PortAt(s, |address|);
      HostBeforePort(s, |address|);
    } else {
      assert ']' !in Digits(port);
      assert forall i | |address| <= i < |s| :: s[i] == ':' || s[i] in s[|address| + 1..];
    }
  }

  /** Every valid IP address survives with a port; without one, every IPv4 address, and an IPv6
  address exactly if its last group is not a decimal number. */
  lemma {:induction false} ValidAddressRoundTrip(address: string, port: uint16)
    requires NetworkUtils.IpAddress(address)
    ensures port != 0 ==> Host(FormatEndpoint(address, port)) == address
    ensures port == 0 && IpGrammar.IPv4Address(address) ==> Host(FormatEndpoint(address, port)) == address
    ensures port == 0 && IpGrammar.IPv6Address(address) ==>
      (Host(FormatEndpoint(address, port)) == address <==> !EndsInPort(address))
  {
    hide IpGrammar.IPv4Address, IpGrammar.IPv6Address, Host;
    if IpGrammar.IPv4Address(address) {
      NetworkUtils.QuadShape(address);
      assert forall i | 0 <= i < |address| :: address[i] != ':';
      assert !EndsInPort(address);
    }
    if IpGrammar.IPv6Address(address) {
      NetworkUtils.AddressShape(address);
    }
    assert address[0] != '[';
    if port != 0 {
      EndpointRoundTrip(address, port);
    } else {
      HostUnchanged(address);
    }
  }

  /** A bare IPv6 address whose last group is decimal is mistaken for a host and a port. */
  lemma {:induction false} BareIpv6LosesItsLastGroup()
    ensures Host("::1") == ":" == Host("::2")
    ensures Host("fe80::1:a") == "fe80::1:a"
  {
    assert PortAt("::1", 1) && PortAt("::2", 1);
    HostBeforePort("::1", 1);
    HostBeforePort("::2", 1);
    assert "::1"[..1] == ":" == "::2"[..1];
    forall i | 0 <= i < |"fe80::1:a"| ensures !PortAt("fe80::1:a", i) {
      if i < 8 {
        assert "fe80::1:a"[i + 1..][8 - i - 1] == 'a';
        assert 'a' in "fe80::1:a"[i + 1..] && !IsDigit('a');
      }
    }
    HostUnchanged("fe80::1:a");
  }

  /** Printing loses nothing for one address: different ports print differently, and different
  addresses with non-zero ports too. */
  lemma {:induction false} EndpointInjective(a: string, p: uint16, b: string, q: uint16)
    requires a != "" && b != "" && p != 0 && q != 0
    requires FormatEndpoint(a, p) == FormatEndpoint(b, q)
    ensures a == b && p == q
  {
    forall n: nat ensures ':' !in Digits(n) {
    }
    CutLast(':', a, Digits(p), b, Digits(q));
    DigitsInjective(p, q);
  }

  /** A host is a piece of its endpoint. */
  lemma {:induction false} HostOccurs(s: string)
    ensures Contains(s, Host(s))
  {
    if s != "" && s[0] == '[' && ']' in s {
      assert OccursAt(s, Host(s), 1);
    } else {
      assert OccursAt(s, Host(s), 0);
    }
  }
}
