/** The caching resolver.  The reverse lookup is an oracle: what it would answer is a parameter of
each call, used only if the call goes through.  A run is any sequence of calls on a cache; the
theorems compare the cache with the history of lookups that really happened. */
module DomainResolver {
  import opened Model
  import opened DnsCache
  import IpGrammar
  import opened NetworkUtils

  datatype ResolutionStatus = RESOLVED | NOT_FOUND | FAILED | INVALID_IP | CACHED

  datatype RemoteEndpoint = RemoteEndpoint(
    processId: uint32,
    processName: string,
    remoteIp: string,
    addressFamily: AddressFamily,
    timestamp: Time)

  datatype ResolvedEndpoint = ResolvedEndpoint(
    processId: uint32,
    processName: string,
    remoteIp: string,
    resolvedDomain: string,
    addressFamily: AddressFamily,
    status: ResolutionStatus,
    cacheHit: bool,
    timestamp: Time)

  /** The answer of a lookup, with whatever it wrote to its out-parameter; or an exception. */
  datatype Reply = Success(hostname: string) | NotFound(hostname: string) | Failed(hostname: string) | Exception

  /** The two clock readings of a call: when the cache is asked, and when a lookup has answered. */
  datatype Request = Request(endpoint: RemoteEndpoint, forceRefresh: bool, asked: Time, answered: Time, reply: Reply)

  function BuildResult(e: RemoteEndpoint, hostname: string, status: ResolutionStatus,
      cacheHit: bool): ResolvedEndpoint {
    ResolvedEndpoint(e.processId, e.processName, e.remoteIp, hostname, e.addressFamily, status, cacheHit, e.timestamp)
  }

  ghost function FamilyOf(address: string): AddressFamily {
    if IpGrammar.IPv4Address(address) then IPv4 else if IpGrammar.IPv6Address(address) then IPv6 else UNKNOWN_FAMILY
  }

  ghost function Normalized(e: RemoteEndpoint): RemoteEndpoint {
    if e.addressFamily == UNKNOWN_FAMILY then e.(addressFamily := FamilyOf(e.remoteIp)) else e
  }

  /** A hostname counts if the lookup succeeded with something else than nothing or the address itself. */
  function Learned(reply: Reply, ip: string): string {
    if reply.Success? && reply.hostname != ip then reply.hostname else ""
  }

  function LookupStatus(reply: Reply, ip: string): ResolutionStatus {
    match reply
    case Exception => FAILED
    case Failed(_) => FAILED
    case NotFound(_) => NOT_FOUND
    case Success(_) => if Learned(reply, ip) != "" then RESOLVED else NOT_FOUND
  }

  /** The request goes past the cache to the lookup. */
  ghost predicate GoesLive(c: Cache, q: Request) {
    IpAddress(q.endpoint.remoteIp) && (q.forceRefresh || Lookup(c, q.endpoint.remoteIp, q.asked).None?)
  }

  ghost function Answer(c: Cache, q: Request): ResolvedEndpoint {
    var ip := q.endpoint.remoteIp;
    if !IpAddress(ip) then BuildResult(q.endpoint, "", INVALID_IP, false)
    else if GoesLive(c, q) then BuildResult(Normalized(q.endpoint), Learned(q.reply, ip), LookupStatus(q.reply, ip),
      false)
    else
      var hostname := Lookup(c, ip, q.asked).value.hostname;
      BuildResult(Normalized(q.endpoint), hostname, if hostname == "" then NOT_FOUND else CACHED, true)
  }

  ghost function Resolved(c: Cache, q: Request): Cache {
    if GoesLive(c, q) then Stored(c, q.endpoint.remoteIp, Learned(q.reply, q.endpoint.remoteIp), q.answered) else c
  }

  // ----- What an answer says, in terms of the lookup's reply

  /** The lookup succeeded with a hostname: neither nothing nor the address itself. */
  predicate Names(reply: Reply, ip: string) {
    reply.Success? && reply.hostname != "" && reply.hostname != ip
  }

  /** The answer of a lookup: the hostname if it names one, a failure if it failed or threw. */
  ghost predicate Reports(answer: ResolvedEndpoint, reply: Reply, ip: string) {
    && !answer.cacheHit
    && (Names(reply, ip) ==> answer.status == RESOLVED && answer.resolvedDomain == reply.hostname)
    && (!Names(reply, ip) ==> answer.resolvedDomain == "")
    && (reply.Failed? || reply.Exception? ==> answer.status == FAILED)
    && (reply.NotFound? || (reply.Success? && !Names(reply, ip)) ==> answer.status == NOT_FOUND)
  }

  /** An answer repeats the endpoint; a family that was unknown is detected from a valid address. */
  ghost predicate Concerns(answer: ResolvedEndpoint, e: RemoteEndpoint) {
    && answer.processId == e.processId && answer.processName == e.processName
    && answer.remoteIp == e.remoteIp && answer.timestamp == e.timestamp
    && answer.addressFamily == if e.addressFamily != UNKNOWN_FAMILY then e.addressFamily
      else if IpGrammar.IPv4Address(e.remoteIp) then IPv4
      else if IpGrammar.IPv6Address(e.remoteIp) then IPv6
      else UNKNOWN_FAMILY
  }

  /** The cache finds exactly this hostname, until the time to live is over. */
  ghost predicate FoundUntil(c: Cache, ip: string, hostname: string, end: Time) {
    forall t: Time ::
      if t < end then Lookup(c, ip, t).Some? && Lookup(c, ip, t).value.hostname == hostname
      else Lookup(c, ip, t).None?
  }

  /** The answer to an invalid address, the answer of a live lookup and what the cache finds after it, and
  the answer of a hit. */
  lemma {:induction false} AnswerSays(c: Cache, q: Request)
    ensures var answer, ip, valid := Answer(c, q), q.endpoint.remoteIp, IpAddress(q.endpoint.remoteIp);
      && Concerns(answer, q.endpoint)
      && (!valid ==>
        answer.status == INVALID_IP && answer.resolvedDomain == "" && !answer.cacheHit && Resolved(c, q) == c)
      && (valid && GoesLive(c, q) ==>
        && Reports(answer, q.reply, ip)
        && FoundUntil(Resolved(c, q), ip, if Names(q.reply, ip) then q.reply.hostname else "",
          q.answered + c.ttl as real)
        && forall other, t | other != ip :: Lookup(Resolved(c, q), other, t) == Lookup(c, other, t))
      && (valid && !GoesLive(c, q) ==>
        && !q.forceRefresh && Lookup(c, ip, q.asked).Some? && Resolved(c, q) == c
        && answer.cacheHit && answer.resolvedDomain == Lookup(c, ip, q.asked).value.hostname
        && answer.status == if answer.resolvedDomain == "" then NOT_FOUND else CACHED)
  {
    hide IpGrammar.IPv4Address, IpGrammar.IPv6Address;
    NoFamilyNoAddress(q.endpoint);
  }

  // ----- Runs

  datatype Operation = Resolve(request: Request) | Refresh(ip: string) | Clear | Purge(now: Time) | SetTtl(ttl: int)

  /** The calls since the cache was made, latest outermost. */
  datatype Run = Fresh(ttl: int, start: Time) | Next(before: Run, op: Operation)

  ghost function After(run: Run): Cache {
    match run
    case Fresh(ttl, _) => Cache(map[], ttl)
    case Next(before, op) => Step(After(before), op)
  }

  ghost function Step(c: Cache, op: Operation): Cache {
    match op
    case Resolve(q) => Resolved(c, q)
    case Refresh(ip) => Without(c, ip)
    case Clear => Cache(map[], c.ttl)
    case Purge(now) => Purged(c, now)
    case SetTtl(ttl) => c.(ttl := ttl)
  }

  function Clock(run: Run): Time {
    match run
    case Fresh(_, start) => start
    case Next(before, Resolve(q)) => q.answered
    case Next(before, Purge(now)) => now
    case Next(before, _) => Clock(before)
  }

  /** The clock never goes back. */
  predicate Ordered(run: Run) {
    match run
    case Fresh(_, _) => true
    case Next(before, op) => Ordered(before) && StartsAt(op, Clock(before))
  }

  predicate StartsAt(op: Operation, clock: Time) {
    match op
    case Resolve(q) => clock <= q.asked <= q.answered
    case Purge(now) => clock <= now
    case _ => true
  }

  // ----- The history of lookups

  /** One lookup that really happened: its reply, when, and the TTL in force then. */
  datatype Record = Record(reply: Reply, at: Time, ttl: int)

  predicate Current(record: Record, now: Time) {
    now - record.at < record.ttl as real
  }

  /** The latest live lookup of `ip` that no refresh or clear came after. */
  ghost function LatestLookup(run: Run, ip: string): Option<Record> {
    match run
    case Fresh(_, _) => None
    case Next(before, op) =>
      match op
      case Resolve(q) =>
        if q.endpoint.remoteIp == ip && GoesLive(After(before), q)
          then Some(Record(q.reply, q.answered, After(before).ttl))
        else LatestLookup(before, ip)
      case Refresh(other) => if other == ip then None else LatestLookup(before, ip)
      case Clear => None
      case _ => LatestLookup(before, ip)
  }

  /** What the cache should say: the latest live lookup, while it is younger than its TTL. */
  ghost function Remembered(run: Run, ip: string, now: Time): Option<DnsCacheEntry> {
    match LatestLookup(run, ip)
    case None => None
    case Some(r) =>
      if Current(r, now) then Some(DnsCacheEntry(Learned(r.reply, ip), r.at, r.at + r.ttl as real)) else None
  }

  /** From now on the cache answers like the history, however often it was purged. */
  lemma {:induction false} Coherence(run: Run, ip: string, now: Time)
    requires Ordered(run) && Clock(run) <= now
    ensures Lookup(After(run), ip, now) == Remembered(run, ip, now)
  {
    hide IpAddress;
    match run
    case Fresh(_, _) =>
    case Next(before, op) =>
      Coherence(before, ip, now);
      match op
      case Resolve(q) =>
      case Purge(at) => PurgeChangesNoLookup(After(before), at, ip, now);
      case _ =>
  }

  /** Every hit returns the hostname that the latest live lookup of that address replied with, or nothing
  if it named none, and does so less than that lookup's TTL later. */
  lemma {:induction false} HitsAreFresh(run: Run, q: Request)
    requires Ordered(run) && Clock(run) <= q.asked && Answer(After(run), q).cacheHit
    ensures var answer, latest := Answer(After(run), q), LatestLookup(run, q.endpoint.remoteIp);
      && latest.Some?
      && q.asked - latest.value.at < latest.value.ttl as real
      && var reply := latest.value.reply;
        if Names(reply, q.endpoint.remoteIp) then answer.resolvedDomain == reply.hostname && answer.status == CACHED
        else answer.resolvedDomain == "" && answer.status == NOT_FOUND
  {
    hide IpAddress, After;
    Coherence(run, q.endpoint.remoteIp, q.asked);
  }

  /** Two live lookups of one address, with no force, refresh or clear between them, are at least
  the first one's TTL apart; and as soon as they are, the second is live. */
  lemma {:induction false} LookupsAreSpaced(run: Run, q: Request)
    requires Ordered(run) && Clock(run) <= q.asked && IpAddress(q.endpoint.remoteIp) && !q.forceRefresh
    requires LatestLookup(run, q.endpoint.remoteIp).Some?
    ensures var first := LatestLookup(run, q.endpoint.remoteIp).value;
      GoesLive(After(run), q) <==> q.asked - first.at >= first.ttl as real
  {
    hide IpAddress, After;
    Coherence(run, q.endpoint.remoteIp, q.asked);
  }

  // ----- Purging

  /** The run without its purges. */
  function Unpurged(run: Run): Run {
    match run
    case Fresh(_, _) => run
    case Next(before, Purge(_)) => Unpurged(before)
    case Next(before, op) => Next(Unpurged(before), op)
  }

  lemma {:induction false} UnpurgedClock(run: Run)
    requires Ordered(run)
    ensures Ordered(Unpurged(run)) && Clock(Unpurged(run)) <= Clock(run) && After(Unpurged(run)).ttl == After(run).ttl
  {
    hide IpAddress;
    if run.Next? {
      UnpurgedClock(run.before);
    }
  }

  lemma {:induction false} UnpurgedHistory(run: Run, ip: string)
    requires Ordered(run)
    ensures LatestLookup(Unpurged(run), ip) == LatestLookup(run, ip)
  {
    hide IpAddress, After;
    if run.Next? {
      var before := run.before;
      UnpurgedHistory(before, ip);
      UnpurgedClock(before);
      if run.op.Resolve? && run.op.request.endpoint.remoteIp == ip {
        Coherence(before, ip, run.op.request.asked);
        Coherence(Unpurged(before), ip, run.op.request.asked);
      }
    }
  }

  /** Purging at any moments changes no later answer of the resolver. */
  lemma {:induction false} PurgesAreInvisible(run: Run, q: Request)
    requires Ordered(run) && Clock(run) <= q.asked
    ensures Answer(After(Unpurged(run)), q) == Answer(After(run), q)
  {
    hide IpAddress, After, Unpurged;
    var ip := q.endpoint.remoteIp;
    UnpurgedClock(run);
    UnpurgedHistory(run, ip);
    Coherence(run, ip, q.asked);
    Coherence(Unpurged(run), ip, q.asked);
  }

  // ----- The class

  /** Storing overrides what an invalidation removes. */
  lemma {:induction false} StoredOver(c: Cache, ip: string, hostname: string, now: Time)
    ensures Stored(Without(c, ip), ip, hostname, now) == Stored(c, ip, hostname, now)
  {
  }

  lemma {:induction false} ResolveStep(run: Run, q: Request)
    ensures After(Next(run, Operation.Resolve(q))) == Resolved(After(run), q)
  {
    hide Resolved;
  }

  ghost function ResolvedAll(c: Cache, qs: seq<Request>): Cache {
    if qs == [] then c else Resolved(ResolvedAll(c, qs[..|qs| - 1]), qs[|qs| - 1])
  }

  class DomainResolver {
    const cache: DnsCache
    /** The calls since the resolver was made, those on its cache included as far as they were noted. */
    ghost var run: Run

    /** The cache is where the run has brought it. */
    ghost predicate Valid()
      reads this, cache
    {
      cache.State() == After(run)
    }

    constructor (cache: DnsCache, ghost start: Time)
      ensures this.cache == cache && run == Run.Fresh(cache.ttl, start)
      ensures cache.entries.Keys == {} ==> Valid()
    {
      this.cache := cache;
      run := Run.Fresh(cache.ttl, start);
    }

    /** The cache is shared: its owner notes what it did to it directly. */
    ghost method Note(op: Operation)
      requires cache.State() == Step(After(run), op)
      modifies `run
      ensures Valid() && run == Next(old(run), op)
    {
      run := Next(run, op);
    }

    /** `live` tells whether the lookup was called. */
    method Resolve(q: Request) returns (result: ResolvedEndpoint, ghost live: bool)
      modifies cache`entries, `run
      ensures live == GoesLive(old(cache.State()), q)
      ensures result == Answer(old(cache.State()), q) && cache.State() == Resolved(old(cache.State()), q)
      ensures Concerns(result, q.endpoint)
      ensures live ==> Reports(result, q.reply, q.endpoint.remoteIp)
      ensures live ==> FoundUntil(cache.State(), q.endpoint.remoteIp,
        if Names(q.reply, q.endpoint.remoteIp) then q.reply.hostname else "", q.answered + cache.ttl as real)
      ensures run == Next(old(run), Operation.Resolve(q)) && (old(Valid()) ==> Valid())
      ensures old(Valid()) && Ordered(old(run)) && Clock(old(run)) <= q.asked && result.cacheHit ==>
        Remembered(old(run), q.endpoint.remoteIp, q.asked).Some?
        && result.resolvedDomain == Remembered(old(run), q.endpoint.remoteIp, q.asked).value.hostname
    {
      hide IpAddress, IpGrammar.IPv4Address, IpGrammar.IPv6Address, After, Stored, Without, LookupStatus, Learned,
        Ordered, Clock, Concerns, Reports, FoundUntil;
      AnswerSays(cache.State(), q);
      if Valid() && Ordered(run) && Clock(run) <= q.asked {
        Coherence(run, q.endpoint.remoteIp, q.asked);
      }
      ResolveStep(run, q);
      run := Next(run, Operation.Resolve(q));
      var endpoint := q.endpoint;
      var valid := IsValidIpAddress(endpoint.remoteIp);
      if !valid {
        return BuildResult(endpoint, "", INVALID_IP, false), false;
      }
      var normalized := endpoint;
      if normalized.addressFamily == UNKNOWN_FAMILY {
        var family := DetectAddressFamily(endpoint.remoteIp);
        normalized := normalized.(addressFamily := family);
      }
      if q.forceRefresh {
        cache.Invalidate(endpoint.remoteIp);
      } else {
        var hit, cached := cache.Get(endpoint.remoteIp, q.asked);
        if hit {
          var status := if cached.hostname == "" then NOT_FOUND else CACHED;
          return BuildResult(normalized, cached.hostname, status, true), false;
        }
      }
      live := true;
      StoredOver(old(cache.State()), endpoint.remoteIp, Learned(q.reply, endpoint.remoteIp), q.answered);
      result := AskLookup(normalized, q.reply, q.answered);
    }

    /** The live part of `resolve`: the lookup is asked, and whatever it does is cached. */
    method AskLookup(normalized: RemoteEndpoint, reply: Reply, answered: Time) returns (result: ResolvedEndpoint)
      modifies cache`entries
      ensures var ip := normalized.remoteIp;
        && result == BuildResult(normalized, Learned(reply, ip), LookupStatus(reply, ip), false)
        && cache.State() == Stored(old(cache.State()), ip, Learned(reply, ip), answered)
    {
      hide Stored;
      var ip := normalized.remoteIp;
      if reply == Exception {
        cache.Put(ip, "", answered);
        return BuildResult(normalized, "", FAILED, false);
      }
      var hostname := reply.hostname;
      if reply.Success? && hostname != "" && hostname != ip {
        cache.Put(ip, hostname, answered);
        return BuildResult(normalized, hostname, RESOLVED, false);
      }
      cache.Put(ip, "", answered);
      if reply.Failed? {
        return BuildResult(normalized, "", FAILED, false);
      }
      return BuildResult(normalized, "", NOT_FOUND, false);
    }

    /** A batch is resolved from left to right, each request seeing what the earlier ones cached. */
    method ResolveAll(qs: seq<Request>) returns (results: seq<ResolvedEndpoint>)
      modifies cache`entries, `run
      ensures old(Valid()) ==> Valid()
      ensures |results| == |qs| && cache.State() == ResolvedAll(old(cache.State()), qs)
      ensures forall i | 0 <= i < |qs| :: results[i] == Answer(ResolvedAll(old(cache.State()), qs[..i]), qs[i])
    {
      hide Answer, Resolved;
      results := [];
      for i := 0 to |qs|
        invariant old(Valid()) ==> Valid()
        invariant |results| == i && cache.State() == ResolvedAll(old(cache.State()), qs[..i])
        invariant forall j | 0 <= j < i :: results[j] == Answer(ResolvedAll(old(cache.State()), qs[..j]), qs[j])
      {
        assert qs[..i + 1][..i] == qs[..i];
        var result, _ := Resolve(qs[i]);
        results := results + [result];
      }
      assert qs[..|qs|] == qs;
    }

    /** An address without process context is resolved like an endpoint that carries nothing else. */
    method ResolveIp(ip: string, family: AddressFamily, forceRefresh: bool, now: Time, asked: Time, answered: Time,
        reply: Reply)
      returns (result: ResolvedEndpoint)
      modifies cache`entries, `run
      ensures old(Valid()) ==> Valid()
      ensures var q := Request(RemoteEndpoint(0, "", ip, family, now), forceRefresh, asked, answered, reply);
        result == Answer(old(cache.State()), q) && cache.State() == Resolved(old(cache.State()), q)
    {
      hide IpAddress, IpGrammar.IPv4Address, IpGrammar.IPv6Address, Answer, Resolved;
      var endpoint := RemoteEndpoint(0, "", ip, family, now);
      ghost var q := Request(endpoint, forceRefresh, asked, answered, reply);
      if family == UNKNOWN_FAMILY {
        var detected := DetectAddressFamily(ip);
        endpoint := endpoint.(addressFamily := detected);
      }
      DetectedTwice(q, endpoint);
      var r, _ := Resolve(Request(endpoint, forceRefresh, asked, answered, reply));
      result := r;
    }

    /** The next resolve of the address asks the lookup again. */
    method Refresh(ip: string)
      modifies cache`entries, `run
      ensures run == Next(old(run), Operation.Refresh(ip)) && (old(Valid()) ==> Valid())
      ensures cache.State() == Without(old(cache.State()), ip)
      ensures forall now :: Lookup(cache.State(), ip, now) == None
    {
      cache.Invalidate(ip);
      run := Next(run, Operation.Refresh(ip));
    }
  }

  /** Detecting the family of an address that has none before resolving changes nothing. */
  lemma {:induction false} DetectedTwice(q: Request, e: RemoteEndpoint)
    requires e == q.endpoint || e == Normalized(q.endpoint)
    ensures forall c :: GoesLive(c, q.(endpoint := e)) == GoesLive(c, q)
    ensures forall c :: Resolved(c, q.(endpoint := e)) == Resolved(c, q)
    ensures forall c :: Answer(c, q.(endpoint := e)) == Answer(c, q)
  {
    hide IpGrammar.IPv4Address, IpGrammar.IPv6Address;
    NoFamilyNoAddress(q.endpoint);
  }

  lemma {:induction false} NoFamilyNoAddress(e: RemoteEndpoint)
    ensures !IpAddress(e.remoteIp) ==> FamilyOf(e.remoteIp) == UNKNOWN_FAMILY
  {
  }
}
