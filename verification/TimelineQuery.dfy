/** Queries over a fixed list of events.  `ViewsAgree` shows that the builder, the query and the
history answer the same question with the same sequence. */
module TimelineQuery {
  import opened Model
  import opened Text
  import opened Timeline
  import opened Endpoint
  import TimelineEventHistory
  import ProcessTimelineBuilder

  /** matchesRemoteDestination: the remote itself, the same host, or a part of the remote or the description. */
  predicate Reaches(e: Event, query: string) {
    || e.remoteAddress == query
    || (Host(e.remoteAddress) != "" && Host(e.remoteAddress) == Host(query))
    || (e.remoteAddress != "" && Contains(e.remoteAddress, query))
    || (e.description != "" && Contains(e.description, query))
  }

  function Reaching(query: string): Event -> bool {
    (e: Event) => Reaches(e, query)
  }

  function ByRemote(s: seq<Event>, query: string): seq<Event> {
    if query == "" then [] else StableSort(Filter(s, Reaching(query)))
  }

  /** The event went to `address`, through whatever port. */
  ghost predicate WentTo(e: Event, address: string) {
    exists port: uint16 :: e.remoteAddress == FormatEndpoint(address, port)
  }

  // ----- What the queries find

  /** The event spells the query out. */
  predicate Mentions(e: Event, query: string) {
    Contains(e.remoteAddress, query) || Contains(e.description, query)
  }

  /** A query works as a substring search on all events exactly when taking its host off changes
  nothing or leaves nothing. */
  lemma {:induction false} QueryIsSearch(query: string)
    ensures (forall e: Event :: Reaches(e, query) <==> Mentions(e, query)) <==>
      Host(query) == query || Host(query) == ""
  {
    hide Host, Contains, Reaches, Mentions;
    if Host(query) == query || Host(query) == "" {
      forall e: Event ensures Reaches(e, query) <==> Mentions(e, query) {
        PlainQuery(e, query);
      }
    } else {
      var e := Overmatched(query);
      assert !(Reaches(e, query) <==> Mentions(e, query));
    }
  }

  /** A query that is its own host, or has none, is exactly a substring search. */
  lemma {:induction false} PlainQuery(e: Event, query: string)
    requires Host(query) == query || Host(query) == ""
    ensures Reaches(e, query) <==> Mentions(e, query)
  {
    hide Contains, Host;
    HostOccurs(e.remoteAddress);
    WholeOccurs(query);
    EmptyContains(query);
    EmptyOccurs(e.remoteAddress);
  }

  lemma {:induction false} EmptyOccurs(s: string)
    ensures Contains(s, "")
  {
    assert OccursAt(s, "", 0);
  }

  lemma {:induction false} WholeOccurs(s: string)
    ensures Contains(s, s)
  {
    assert OccursAt(s, s, 0);
  }

  lemma {:induction false} EmptyContains(query: string)
    ensures Contains("", query) <==> query == ""
    ensures Host("") == ""
  {
    assert OccursAt("", "", 0);
  }

  /** Any other query reaches an event that goes to its host and mentions it nowhere. */
  lemma {:induction false} Overmatched(query: string) returns (e: Event)
    requires Host(query) != query && Host(query) != ""
    ensures Reaches(e, query) && !Mentions(e, query)
  {
    var remote := SameHost(query);
    e := Event(EPOCH, 0, "", CONNECTION_OPENED, "", remote, TCP, 0, 0, "");
    hide Contains, Host;
    EmptyContains(query);
  }

  /** Another endpoint of the query's host, in which the query does not occur. */
  lemma {:induction false} SameHost(query: string) returns (remote: string)
    requires Host(query) != query && Host(query) != ""
    ensures Host(remote) == Host(query) && !Contains(remote, query)
  {
    var host := Host(query);
    if host[0] == '[' {
      assert query[0] == '[';
      remote := host;
      assert ']' !in host;
      TooLong(remote, query);
    } else {
      remote := host + if query[|query| - 1] == '0' then ":1" else ":0";
      assert remote[|host|] == ':' && remote[..|host|] == host;
      assert PortAt(remote, |host|);
      HostBeforePort(remote, |host|);
      if |query| == |remote| {
        assert query[0] != remote[0] || query[|query| - 1] != remote[|remote| - 1];
        SameLength(remote, query);
      } else {
        TooLong(remote, query);
      }
    }
  }

  lemma {:induction false} TooLong(s: string, pattern: string)
    requires |pattern| > |s|
    ensures !Contains(s, pattern)
  {
  }

  lemma {:induction false} SameLength(s: string, pattern: string)
    requires |pattern| == |s| && pattern != s
    ensures !Contains(s, pattern)
  {
    assert s[0..|s|] == s;
  }

  /** A query with a port finds the same host behind every port, and otherwise only what spells the
  query out. */
  lemma {:induction false} EndpointQuery(e: Event, address: string, port: uint16, a: string, p: uint16)
    requires address != "" && address[0] != '[' && port != 0
    requires a != "" && a[0] != '[' && p != 0 && e.remoteAddress == FormatEndpoint(a, p)
    ensures var query := FormatEndpoint(address, port);
      Reaches(e, query) <==> a == address || Mentions(e, query)
  {
    hide Host, Contains;
    var query := FormatEndpoint(address, port);
    EndpointRoundTrip(address, port);
    EndpointRoundTrip(a, p);
    EmptyContains(query);
    if e.remoteAddress == query {
      EndpointInjective(a, p, address, port);
    }
  }

  /** A bare IPv6 address can match another one: both lose their last group. */
  lemma {:induction false} BareIpv6QueryOvermatches(e: Event)
    requires e.remoteAddress == "::2" && e.description == ""
    ensures Reaches(e, "::1") && !WentTo(e, "::1") && !Mentions(e, "::1")
  {
    BareIpv6LosesItsLastGroup();
    forall port: uint16 ensures FormatEndpoint("::1", port) != "::2" {
      assert "::1"[2] != "::2"[2];
      assert FormatEndpoint("::1", port)[2] == '1';
    }
    forall i | 0 <= i <= 3 ensures !OccursAt("::2", "::1", i) {
      assert i == 0 ==> "::2"[0..3][2] == '2';
    }
  }

  ghost function GoingTo(address: string): Event -> bool {
    (e: Event) => WentTo(e, address)
  }

  /** A query by address returns, in stable order, every event that went there, through any port or none. */
  lemma {:induction false} QueryIsComplete(s: seq<Event>, address: string)
    requires address != ""
    ensures Filter(ByRemote(s, address), GoingTo(address)) == StableSort(Filter(s, GoingTo(address)))
    ensures Sorted(ByRemote(s, address))
    ensures forall e | e in s && WentTo(e, address) :: e in ByRemote(s, address)
  {
    hide Filter, StableSort, Sorted, Contains;
    var found := Filter(s, Reaching(address));
    forall e | WentTo(e, address) ensures Reaches(e, address) {
      var port: uint16 :| e.remoteAddress == FormatEndpoint(address, port);
      AddressOccurs(address, port);
    }
    FilterTwice(s, GoingTo(address), Reaching(address));
    FilterCommutes(found, GoingTo(address));
    StableSortSorts(found);
    FilterMembers(s, Reaching(address));
    forall e | e in s && WentTo(e, address) ensures e in StableSort(found) {
      assert e in multiset(found);
      assert e in multiset(StableSort(found));
    }
  }

  lemma {:induction false} AddressOccurs(address: string, port: uint16)
    ensures Contains(FormatEndpoint(address, port), address)
  {
    assert OccursAt(FormatEndpoint(address, port), address, 0);
  }

  // ----- The routes agree

  /** Sorting globally and then selecting, selecting and then sorting, and selecting again from an
  already sorted timeline all give one sequence. */
  lemma {:induction false} ViewsAgree(s: seq<Event>, p: Event -> bool)
    ensures Filter(StableSort(s), p) == StableSort(Filter(s, p)) == StableSort(Filter(StableSort(s), p))
    ensures Latest(StableSort(s), 0) == StableSort(s)
  {
    hide Filter, StableSort, Sorted;
    FilterCommutes(s, p);
    FilterCommutes(StableSort(s), p);
    StableSortSorts(s);
    SortIdempotent(StableSort(s));
  }

  // ----- The class

  class TimelineQuery {
    var events: seq<Event>

    constructor (events: seq<Event>)
      ensures this.events == events
    {
      this.events := events;
    }

    constructor OfHistory(history: TimelineEventHistory.TimelineEventHistory)
      ensures events == StableSort(history.events)
    {
      new;
      events := history.GetRecent(0);
    }

    constructor OfBuilder(builder: ProcessTimelineBuilder.ProcessTimelineBuilder)
      ensures events == builder.globalTimeline
    {
      events := builder.globalTimeline;
    }

    method ByProcessId(pid: uint32) returns (matched: seq<Event>)
      ensures matched == StableSort(Filter(events, OfProcess(pid)))
      ensures Sorted(matched) && forall e :: e in matched <==> e in events && e.processId == pid
    {
      hide StableSort, Filter, Sorted;
      LookupMembers(events, OfProcess(pid));
      matched := Matching(events, OfProcess(pid));
      matched := StableSort(matched);
    }

    method ByProcessName(name: string) returns (matched: seq<Event>)
      ensures matched == StableSort(Filter(events, Named(name)))
      ensures Sorted(matched) && forall e :: e in matched <==> e in events && e.processName == name
    {
      hide StableSort, Filter, Sorted;
      LookupMembers(events, Named(name));
      matched := Matching(events, Named(name));
      matched := StableSort(matched);
    }

    method ByEventType(t: ActivityType) returns (matched: seq<Event>)
      ensures matched == StableSort(Filter(events, OfType(t)))
      ensures Sorted(matched) && forall e :: e in matched <==> e in events && e.eventType == t
    {
      hide StableSort, Filter, Sorted;
      LookupMembers(events, OfType(t));
      matched := Matching(events, OfType(t));
      matched := StableSort(matched);
    }

    method ByRemoteDestination(query: string) returns (matched: seq<Event>)
      ensures matched == ByRemote(events, query)
    {
      hide Contains, Host;
      matched := [];
      if query == "" {
        return;
      }
      assert events[..0] == [];
      for i := 0 to |events|
        invariant matched == Filter(events[..i], Reaching(query))
      {
        assert events[..i + 1][..i] == events[..i];
        var matches := MatchesRemoteDestination(events[i], query);
        if matches {
          matched := matched + [events[i]];
        }
      }
      assert events[..|events|] == events;
      matched := StableSort(matched);
    }

    /** The newest events up to the count, in chronological order; nothing left out is later than
    anything returned. */
    method Recent(count: nat) returns (recent: seq<Event>)
      ensures recent == Latest(events, count)
      ensures exists older :: Divides(older, recent, events, count)
    {
      hide StableSort, Divides;
      LatestDivides(events, Latest(events, count), count);
      recent := StableSort(events);
      if count == 0 || count >= |recent| {
        return recent;
      }
      recent := recent[|recent| - count..];
    }
  }

  method MatchesRemoteDestination(event: Event, query: string) returns (matches: bool)
    ensures matches == Reaches(event, query)
  {
    hide Contains, Host;
    if event.remoteAddress == query {
      return true;
    }
    var eventHost := HostFromEndpoint(event.remoteAddress);
    var queryHost := HostFromEndpoint(query);
    if eventHost != "" && eventHost == queryHost {
      return true;
    }
    FindDecides(event.remoteAddress, query);
    FindDecides(event.description, query);
    if event.remoteAddress != "" && Find(event.remoteAddress, query).Some? {
      return true;
    }
    if event.description != "" && Find(event.description, query).Some? {
      return true;
    }
    return false;
  }

  lemma {:induction false} FindDecides(s: string, pattern: string)
    ensures Find(s, pattern).Some? <==> Contains(s, pattern)
  {
    hide FindFrom;
  }

  /** The builder's bucket is what a query over the builder, a query over the same events and the
  history's own lookup return. */
  method SameTimelineByAllRoutes(builder: ProcessTimelineBuilder.ProcessTimelineBuilder,
      history: TimelineEventHistory.TimelineEventHistory, pid: uint32)
    returns (bucket: seq<Event>, queried: seq<Event>, looked: seq<Event>, requeried: seq<Event>)
    modifies builder
    ensures bucket == queried == looked == requeried
  {
    hide Filter, StableSort;
    builder.Build(history.events);
    bucket := builder.GetProcessTimeline(pid);
    var fromBuilder := new TimelineQuery.OfBuilder(builder);
    queried := fromBuilder.ByProcessId(pid);
    looked := history.GetByProcessId(pid);
    var fromHistory := new TimelineQuery.OfHistory(history);
    requeried := fromHistory.ByProcessId(pid);
    ViewsAgree(history.events, OfProcess(pid));
  }
}
