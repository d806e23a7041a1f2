/** Per-process activity summaries: destination peaks, totals, the most active destination, and the
thresholds of the behaviour hints. */
module TimelineSummaryBuilder {
  import opened Model
  import opened FiniteSums
  import opened Timeline

  // ----- Destinations

  datatype DestinationStats = DestinationStats(uploadedBytes: uint64, downloadedBytes: uint64, eventCount: nat)
  {
    function Bytes(d: Direction): uint64 {
      if d == Upload then uploadedBytes else downloadedBytes
    }
    function Sum(): uint64 {
      Wrap(uploadedBytes + downloadedBytes)
    }
  }

  predicate IsMoreActive(left: DestinationStats, right: DestinationStats) {
    if left.Sum() != right.Sum() then left.Sum() > right.Sum()
    else if left.uploadedBytes != right.uploadedBytes then left.uploadedBytes > right.uploadedBytes
    else left.eventCount > right.eventCount
  }

  /** The largest byte count of an event going to `r`, or zero. */
  function Peak(s: seq<Event>, r: string, d: Direction): (p: uint64)
    ensures forall e | e in s && e.remoteAddress == r :: e.Bytes(d) <= p
    ensures p == 0 || exists e :: e in s && e.remoteAddress == r && e.Bytes(d) == p
  {
    if s == [] then 0 else
      var e, before := s[|s| - 1], Peak(s[..|s| - 1], r, d);
      assert s == s[..|s| - 1] + [e];
      if e.remoteAddress == r && e.Bytes(d) > before then e.Bytes(d) else before
  }

  function GoingTo(r: string): Event -> bool {
    (e: Event) => e.remoteAddress == r
  }

  function Remotes(s: seq<Event>): set<string> {
    set i | 0 <= i < |s| && s[i].remoteAddress != "" :: s[i].remoteAddress
  }

  function StatsOf(s: seq<Event>, r: string): DestinationStats {
    DestinationStats(Peak(s, r, Upload), Peak(s, r, Download), |Filter(s, GoingTo(r))|)
  }

  /** byDestination after the events `s`. */
  ghost predicate Tallied(m: map<string, DestinationStats>, s: seq<Event>) {
    m.Keys == Remotes(s) && forall r | r in m :: m[r] == StatsOf(s, r)
  }

  const NO_STATS := DestinationStats(0, 0, 0)

  function Bump(stats: DestinationStats, e: Event): DestinationStats {
    DestinationStats(
      if e.uploadedBytes > stats.uploadedBytes then e.uploadedBytes else stats.uploadedBytes,
      if e.downloadedBytes > stats.downloadedBytes then e.downloadedBytes else stats.downloadedBytes,
      stats.eventCount + 1)
  }

  lemma {:induction false} StatsStep(s: seq<Event>, e: Event, r: string)
    ensures StatsOf(s + [e], r) == if e.remoteAddress == r then Bump(StatsOf(s, r), e) else StatsOf(s, r)
  {
    hide Filter;
    assert (s + [e])[..|s|] == s;
    FilterStep(s, e, GoingTo(r));
  }

  lemma {:induction false} UnseenStats(s: seq<Event>, r: string)
    requires r !in Remotes(s) && r != ""
    ensures StatsOf(s, r) == NO_STATS
  {
    forall e | e in s ensures e.remoteAddress != r {
      var i :| 0 <= i < |s| && s[i] == e;
    }
    FilterNone(s, GoingTo(r));
  }

  lemma {:induction false} TallyStep(m: map<string, DestinationStats>, s: seq<Event>, e: Event)
    requires Tallied(m, s)
    ensures Remotes(s + [e]) == Remotes(s) + if e.remoteAddress != "" then {e.remoteAddress} else {}
    ensures var r := e.remoteAddress;
      Tallied(if r == "" then m else m[r := Bump(if r in m then m[r] else NO_STATS, e)], s + [e])
  {
    hide StatsOf;
    var all := s + [e];
    assert all[|s|] == e && forall i | 0 <= i < |s| :: all[i] == s[i];
    assert Remotes(all) == Remotes(s) + if e.remoteAddress != "" then {e.remoteAddress} else {};
    forall r: string ensures StatsOf(all, r) == if e.remoteAddress == r then Bump(StatsOf(s, r), e) else StatsOf(s, r) {
      StatsStep(s, e, r);
    }
    if e.remoteAddress != "" && e.remoteAddress !in m {
      UnseenStats(s, e.remoteAddress);
    }
  }

  // ----- The algebra of summaries

  /** Peaks of a concatenation are the larger of the peaks of the parts; the event counts add up. */
  lemma {:induction false} PeaksOfConcat(a: seq<Event>, b: seq<Event>, r: string)
    ensures forall d: Direction :: Peak(a + b, r, d) == if Peak(a, r, d) > Peak(b, r, d) then Peak(a, r, d)
      else Peak(b, r, d)
    ensures StatsOf(a + b, r).eventCount == StatsOf(a, r).eventCount + StatsOf(b, r).eventCount
    ensures Remotes(a + b) == Remotes(a) + Remotes(b)
  {
    hide Peak, Filter;
    var s := a + b;
    assert (forall e :: e in s <==> e in a || e in b);
    FilterConcat(a, b, GoingTo(r));
    RemoteMembers(a);
    RemoteMembers(b);
    RemoteMembers(s);
  }

  lemma {:induction false} RemoteMembers(s: seq<Event>)
    ensures forall r :: r in Remotes(s) <==> r != "" && exists e :: e in s && e.remoteAddress == r
  {
    forall r ensures r in Remotes(s) <==> r != "" && exists e :: e in s && e.remoteAddress == r {
      if r in Remotes(s) {
        var i :| 0 <= i < |s| && s[i].remoteAddress == r;
        assert s[i] in s;
      }
    }
  }

  lemma {:induction false} CountPermutes(s: seq<Event>, t: seq<Event>, p: Event -> bool)
    requires multiset(s) == multiset(t)
    ensures |Filter(s, p)| == |Filter(t, p)|
    decreases |s|
  {
    if s == [] {
      assert multiset(t) == multiset{};
      assert |multiset(t)| == |t|;
    } else {
      hide Filter;
      var front, e := s[..|s| - 1], s[|s| - 1];
      assert s == front + [e];
      var left, right := TakeOut(t, e, front);
      CountPermutes(front, left + right, p);
      FilterStep(front, e, p);
      CountWithout(left, e, right, p);
    }
  }

  lemma {:induction false} TakeOut(t: seq<Event>, e: Event, front: seq<Event>)
    returns (left: seq<Event>, right: seq<Event>)
    requires multiset(t) == multiset(front + [e])
    ensures t == left + [e] + right && multiset(left + right) == multiset(front)
  {
    AddsOne(front, e, []);
    assert front + [e] + [] == front + [e] && front + [] == front;
    assert e in multiset(t);
    var i :| 0 <= i < |t| && t[i] == e;
    left, right := t[..i], t[i + 1..];
    assert t == left + [e] + right;
    AddsOne(left, e, right);
    CancelOne(multiset(left + right), multiset(front), e);
  }

  lemma {:induction false} AddsOne(left: seq<Event>, e: Event, right: seq<Event>)
    ensures multiset(left + [e] + right) == multiset(left + right) + multiset{e}
  {
  }

  lemma {:induction false} CancelOne(a: multiset<Event>, b: multiset<Event>, e: Event)
    requires a + multiset{e} == b + multiset{e}
    ensures a == b
  {
    assert a == a + multiset{e} - multiset{e};
    assert b == b + multiset{e} - multiset{e};
  }

  lemma {:induction false} CountWithout(left: seq<Event>, e: Event, right: seq<Event>, p: Event -> bool)
    ensures |Filter(left + [e] + right, p)| == |Filter(left + right, p)| + if p(e) then 1 else 0
  {
    hide Filter;
    FilterStep(left, e, p);
    FilterConcat(left + [e], right, p);
    FilterConcat(left, right, p);
  }

  /** Two event lists with the same events give every destination the same statistics. */
  lemma {:induction false} StatsPermute(s: seq<Event>, t: seq<Event>, r: string)
    requires multiset(s) == multiset(t)
    ensures StatsOf(s, r) == StatsOf(t, r)
  {
    hide Peak, Filter;
    SameMembers(s, t);
    CountPermutes(s, t, GoingTo(r));
  }

  lemma {:induction false} SameMembers(s: seq<Event>, t: seq<Event>)
    requires multiset(s) == multiset(t)
    ensures forall e :: e in s <==> e in t
    ensures Remotes(s) == Remotes(t) && |s| == |t|
  {
    forall e ensures e in s <==> e in t {
      assert e in s <==> e in multiset(s);
      assert e in t <==> e in multiset(t);
    }
    RemoteMembers(s);
    RemoteMembers(t);
    assert |multiset(s)| == |s| && |multiset(t)| == |t|;
  }

  // ----- The chosen destination

  /** A most active destination: none is strictly more active. */
  ghost predicate Chosen(best: string, m: map<string, DestinationStats>) {
    if m.Keys == {} then best == ""
    else best in m && forall r | r in m :: !IsMoreActive(m[r], m[best])
  }

  /** Ties are complete: destinations of which neither is more active have the same statistics, so
  every choice reports the same volumes and counts. */
  lemma {:induction false} TiesAreEqual(a: DestinationStats, b: DestinationStats)
    ensures !IsMoreActive(a, b) && !IsMoreActive(b, a) <==> a == b
  {
  }

  /** The comparison of the code, without the wrap-around. */
  predicate TrulyMoreActive(left: DestinationStats, right: DestinationStats) {
    var l, r := left.uploadedBytes + left.downloadedBytes, right.uploadedBytes + right.downloadedBytes;
    if l != r then l > r
    else if left.uploadedBytes != right.uploadedBytes then left.uploadedBytes > right.uploadedBytes
    else left.eventCount > right.eventCount
  }

  predicate SumBelow(stats: DestinationStats, limit: nat) {
    stats.uploadedBytes + stats.downloadedBytes < limit
  }

  /** The code compares destinations with sums below a limit by what they really transferred exactly if
  the limit is at most 2^64. */
  lemma {:induction false} ComparisonIsTrue(limit: nat)
    ensures limit <= TWO_TO_THE_64 <==>
      forall a, b | SumBelow(a, limit) && SumBelow(b, limit) :: IsMoreActive(a, b) <==> TrulyMoreActive(a, b)
  {
    if limit > TWO_TO_THE_64 {
      var a, b := DestinationStats(TWO_TO_THE_64 - 1, 1, 1), DestinationStats(1, 0, 1);
      assert SumBelow(a, limit) && SumBelow(b, limit);
      assert a.Sum() == 0 && b.Sum() == 1;
      assert !IsMoreActive(a, b) && TrulyMoreActive(a, b);
    } else {
      forall a, b | SumBelow(a, limit) && SumBelow(b, limit) ensures IsMoreActive(a, b) <==> TrulyMoreActive(a, b) {
        assert a.Sum() == a.uploadedBytes + a.downloadedBytes;
        assert b.Sum() == b.uploadedBytes + b.downloadedBytes;
      }
    }
  }

  /** When the sums fit, the chosen destination has the largest upload plus download. */
  lemma {:induction false} MostActiveIsLargest(best: string, s: seq<Event>)
    requires MostActive(best, s) && Remotes(s) != {}
    requires forall r | r in Remotes(s) :: Peak(s, r, Upload) + Peak(s, r, Download) < TWO_TO_THE_64
    ensures best in Remotes(s)
    ensures forall r | r in Remotes(s) ::
      Peak(s, r, Upload) + Peak(s, r, Download) <= Peak(s, best, Upload) + Peak(s, best, Download)
  {
    hide Peak, Filter, Remotes, IsMoreActive;
    ComparisonIsTrue(TWO_TO_THE_64);
    forall r | r in Remotes(s) ensures !TrulyMoreActive(StatsOf(s, r), StatsOf(s, best)) {
      assert SumBelow(StatsOf(s, r), TWO_TO_THE_64) && SumBelow(StatsOf(s, best), TWO_TO_THE_64);
    }
  }

  /** An event that shows bytes in one direction. */
  function Shows(r: string, d: Direction, bytes: uint64): Event {
    Event(EPOCH, 1, "", if d == Upload then UPLOAD_ACTIVITY else DOWNLOAD_ACTIVITY, "", r, TCP,
      if d == Upload then bytes else 0, if d == Download then bytes else 0, "")
  }

  /** A sum that wraps to zero: the destination with one byte is chosen over the one with 2^64. */
  lemma {:induction false} WrapPicksSmaller(s: seq<Event>)
    requires s == [Shows("a", Upload, TWO_TO_THE_64 - 1), Shows("a", Download, 1), Shows("b", Upload, 1)]
    ensures Peak(s, "a", Upload) + Peak(s, "a", Download) == TWO_TO_THE_64
    ensures Peak(s, "b", Upload) + Peak(s, "b", Download) == 1
    ensures MostActive("b", s) && !MostActive("a", s)
  {
    hide Peak, Filter, Remotes;
    assert Remotes(s) == {"a", "b"} by { TwoDestinations(s); }
    assert s[0] in s && s[1] in s && s[2] in s;
    assert Peak(s, "a", Upload) == TWO_TO_THE_64 - 1 && Peak(s, "a", Download) == 1;
    assert Peak(s, "b", Upload) == 1 && Peak(s, "b", Download) == 0;
    assert StatsOf(s, "a").Sum() == 0 && StatsOf(s, "b").Sum() == 1;
  }

  lemma {:induction false} TwoDestinations(s: seq<Event>)
    requires s == [Shows("a", Upload, TWO_TO_THE_64 - 1), Shows("a", Download, 1), Shows("b", Upload, 1)]
    ensures Remotes(s) == {"a", "b"}
  {
    assert s[0].remoteAddress == s[1].remoteAddress == "a" && s[2].remoteAddress == "b";
  }

  // ----- Totals

  /** The peaks of the destinations outside `rest`. */
  ghost function PeaksIn(m: map<string, DestinationStats>, rest: set<string>, d: Direction): map<string, nat> {
    map r | r in m && r !in rest :: m[r].Bytes(d)
  }

  /** The peaks of all destinations of the events. */
  ghost function Peaks(s: seq<Event>, d: Direction): map<string, nat> {
    map r | r in Remotes(s) :: Peak(s, r, d)
  }

  lemma {:induction false} PeaksStep(m: map<string, DestinationStats>, rest: set<string>, r: string, d: Direction)
    requires r in m && r in rest
    ensures Total(PeaksIn(m, rest - {r}, d)) == Total(PeaksIn(m, rest, d)) + m[r].Bytes(d)
  {
    hide Total;
    TotalRemove(PeaksIn(m, rest - {r}, d), r);
    assert PeaksIn(m, rest - {r}, d) - {r} == PeaksIn(m, rest, d);
  }

  /** The loop over the destinations, in whatever order the map is visited. */
  method TotalsAndBest(byDestination: map<string, DestinationStats>)
    returns (uploaded: uint64, downloaded: uint64, best: string)
    requires "" !in byDestination
    ensures uploaded == Wrap(Total(PeaksIn(byDestination, {}, Upload)))
    ensures downloaded == Wrap(Total(PeaksIn(byDestination, {}, Download)))
    ensures Chosen(best, byDestination)
  {
    hide Total, Wrap, IsMoreActive;
    uploaded, downloaded, best := 0, 0, "";
    var bestStats := NO_STATS;
    var keys := byDestination.Keys;
    TotalZero(PeaksIn(byDestination, keys, Upload));
    TotalZero(PeaksIn(byDestination, keys, Download));
    WrapSmall(0);
    while keys != {}
      invariant keys <= byDestination.Keys
      invariant uploaded == Wrap(Total(PeaksIn(byDestination, keys, Upload)))
      invariant downloaded == Wrap(Total(PeaksIn(byDestination, keys, Download)))
      invariant if keys == byDestination.Keys then best == ""
        else best in byDestination && bestStats == byDestination[best]
      invariant forall r | r in byDestination && r !in keys :: !IsMoreActive(byDestination[r], bestStats)
    {
      var destination :| destination in keys;
      var stats := byDestination[destination];
      WrapAdd(Total(PeaksIn(byDestination, keys, Upload)), stats.uploadedBytes);
      WrapAdd(Total(PeaksIn(byDestination, keys, Download)), stats.downloadedBytes);
      PeaksStep(byDestination, keys, destination, Upload);
      PeaksStep(byDestination, keys, destination, Download);
      TiesAreEqual(stats, stats);
      keys := keys - {destination};
      uploaded := Wrap(uploaded + stats.uploadedBytes);
      downloaded := Wrap(downloaded + stats.downloadedBytes);
      if best == "" || IsMoreActive(stats, bestStats) {
        forall r | r in byDestination && r !in keys ensures !IsMoreActive(byDestination[r], stats) {
          Displaced(byDestination[r], bestStats, stats);
        }
        best := destination;
        bestStats := stats;
      }
    }
  }

  /** What the displaced best was not less active than, its successor is not either. */
  lemma {:induction false} Displaced(a: DestinationStats, best: DestinationStats, next: DestinationStats)
    ensures !IsMoreActive(a, best) && IsMoreActive(next, best) ==> !IsMoreActive(a, next)
  {
    hide DestinationStats.Sum;
  }

  // ----- Hints

  datatype Hint = ElevatedUpload | UploadDominant | ManyRemotes | RepeatedUploads | Suspicious(description: string)

  const ELEVATED_UPLOAD_BYTES: nat := 10 * 1024 * 1024
  const UPLOAD_DOMINANT_RATIO: nat := 5
  const MANY_REMOTE_ENDPOINTS: nat := 8
  const REPEATED_UPLOAD_EVENTS: nat := 5
  const ONE_MEBIBYTE: nat := 1024 * 1024

  /** The 64-bit comparison of the code. */
  predicate Dominant(uploaded: uint64, downloaded: uint64) {
    uploaded > 0 && uploaded >= Wrap(downloaded * UPLOAD_DOMINANT_RATIO) && uploaded >= ONE_MEBIBYTE
  }

  /** The hint says what it means for every upload total exactly when five times the inbound total
  fits 64 bits. */
  lemma {:induction false} DominanceIsSound(downloaded: uint64)
    ensures downloaded * UPLOAD_DOMINANT_RATIO < TWO_TO_THE_64
      <==> forall uploaded: uint64 :: Dominant(uploaded, downloaded) <==>
        uploaded >= ONE_MEBIBYTE && uploaded >= downloaded * UPLOAD_DOMINANT_RATIO
  {
    if downloaded * UPLOAD_DOMINANT_RATIO >= TWO_TO_THE_64 {
      assert Dominant(TWO_TO_THE_64 - 1, downloaded);
    }
  }

  /** An inbound total past the overflow: one mebibyte of upload counts as dominant. */
  lemma {:induction false} DominanceOverflow()
    ensures Dominant(ONE_MEBIBYTE, 0x3333_3333_3333_3334)
  {
  }

  function Note(observed: bool, hint: Hint, hints: seq<Hint>): seq<Hint> {
    if observed then hints + [hint] else hints
  }

  function Hints(uploaded: uint64, downloaded: uint64, remotes: nat, uploadEvents: nat, suspiciousEvents: nat,
      description: string): seq<Hint> {
    Note(suspiciousEvents > 0, Suspicious(description),
      Note(uploadEvents >= REPEATED_UPLOAD_EVENTS, RepeatedUploads,
        Note(remotes >= MANY_REMOTE_ENDPOINTS, ManyRemotes,
          Note(Dominant(uploaded, downloaded), UploadDominant,
            Note(uploaded >= ELEVATED_UPLOAD_BYTES, ElevatedUpload, [])))))
  }

  // ----- Summaries

  datatype Summary = Summary(
    processId: uint32,
    processName: string,
    firstSeen: Time,
    lastSeen: Time,
    remoteEndpointCount: nat,
    connectionOpenCount: nat,
    totalUploadedBytes: uint64,
    totalDownloadedBytes: uint64,
    mostActiveDestination: string,
    behaviorHints: seq<Hint>)

  const EMPTY_SUMMARY := Summary(0, "", EPOCH, EPOCH, 0, 0, 0, 0, "", [])

  function FirstName(s: seq<Event>): string {
    if s == [] then "" else
      var name := FirstName(s[..|s| - 1]);
      if name != "" then name else s[|s| - 1].processName
  }

  /** The first description of a suspicious event that has one. */
  function FirstDescription(s: seq<Event>): string {
    if s == [] then "" else
      var description := FirstDescription(s[..|s| - 1]);
      if description != "" || s[|s| - 1].eventType != SUSPICIOUS_ACTIVITY then description else s[|s| - 1].description
  }

  function Times(s: seq<Event>): set<Time> {
    set i | 0 <= i < |s| :: s[i].timestamp
  }

  function Count(s: seq<Event>, t: ActivityType): nat {
    |Filter(s, OfType(t))|
  }

  /** The two times span the events `s`, and are times of `all`. */
  ghost predicate Spans(first: Time, last: Time, s: seq<Event>, all: seq<Event>) {
    && first in Times(all) && (forall t | t in Times(s) :: first <= t)
    && last in Times(all) && (forall t | t in Times(s) :: t <= last)
  }

  /** `x` is a summary of the events; only the most active destination is left open, between ties. */
  ghost predicate Summarizes(x: Summary, s: seq<Event>) {
    if s == [] then x == EMPTY_SUMMARY else
      && x.processId == s[|s| - 1].processId
      && x.processName == FirstName(s)
      && Spans(x.firstSeen, x.lastSeen, s, s)
      && x.remoteEndpointCount == |Remotes(s)|
      && x.connectionOpenCount == Count(s, CONNECTION_OPENED)
      && x.totalUploadedBytes == Wrap(Total(Peaks(s, Upload)))
      && x.totalDownloadedBytes == Wrap(Total(Peaks(s, Download)))
      && MostActive(x.mostActiveDestination, s)
      && x.behaviorHints == Hints(
        x.totalUploadedBytes, x.totalDownloadedBytes, |Remotes(s)|, Count(s, UPLOAD_ACTIVITY),
        Count(s, SUSPICIOUS_ACTIVITY), FirstDescription(s))
  }

  /** No destination of the events is strictly more active than `best`. */
  ghost predicate MostActive(best: string, s: seq<Event>) {
    if Remotes(s) == {} then best == ""
    else best in Remotes(s) && forall r | r in Remotes(s) :: !IsMoreActive(StatsOf(s, r), StatsOf(s, best))
  }

  /** Two summaries of the same events, visiting the destinations in different orders, differ at
  most in the most active destination, and then both choices have the same statistics. */
  lemma {:induction false} SummariesAgree(x: Summary, y: Summary, s: seq<Event>)
    requires Summarizes(x, s) && Summarizes(y, s)
    ensures x == y.(mostActiveDestination := x.mostActiveDestination)
    ensures StatsOf(s, x.mostActiveDestination) == StatsOf(s, y.mostActiveDestination)
  {
    hide StatsOf, IsMoreActive, FirstName, FirstDescription, Hints, Total, Wrap, Filter;
    TiesAreEqual(StatsOf(s, x.mostActiveDestination), StatsOf(s, y.mostActiveDestination));
  }

  // ----- What a summary says

  /** The name is the first one that is not empty, if there is one. */
  lemma {:induction false} FirstNameIsFirst(s: seq<Event>)
    ensures if exists i | 0 <= i < |s| :: s[i].processName != ""
      then exists i | 0 <= i < |s| ::
        s[i].processName == FirstName(s) != "" && forall j | 0 <= j < i :: s[j].processName == ""
      else FirstName(s) == ""
  {
    if s != [] {
      var front := s[..|s| - 1];
      FirstNameIsFirst(front);
      assert forall i | 0 <= i < |front| :: front[i] == s[i];
    }
  }

  /** A suspicious event that says why. */
  predicate Explained(e: Event) {
    e.eventType == SUSPICIOUS_ACTIVITY && e.description != ""
  }

  /** The description is that of the first explained event, if there is one. */
  lemma {:induction false} FirstDescriptionIsFirst(s: seq<Event>)
    ensures if exists i | 0 <= i < |s| :: Explained(s[i])
      then exists i | 0 <= i < |s| ::
        Explained(s[i]) && s[i].description == FirstDescription(s) && forall j | 0 <= j < i :: !Explained(s[j])
      else FirstDescription(s) == ""
  {
    if s != [] {
      var front := s[..|s| - 1];
      FirstDescriptionIsFirst(front);
      assert forall i | 0 <= i < |front| :: front[i] == s[i];
    }
  }

  function Rank(h: Hint): nat {
    match h
    case ElevatedUpload => 0
    case UploadDominant => 1
    case ManyRemotes => 2
    case RepeatedUploads => 3
    case Suspicious(_) => 4
  }

  /** The hints stand in the order of their ranks, all of them below `limit`. */
  ghost predicate Ranked(hints: seq<Hint>, limit: nat) {
    && (forall h | h in hints :: Rank(h) < limit)
    && forall i, j | 0 <= i < j < |hints| :: Rank(hints[i]) < Rank(hints[j])
  }

  lemma {:induction false} Noted(observed: bool, hint: Hint, hints: seq<Hint>)
    requires Ranked(hints, Rank(hint))
    ensures Ranked(Note(observed, hint, hints), Rank(hint) + 1)
    ensures forall h :: h in Note(observed, hint, hints) <==> h in hints || (observed && h == hint)
  {
    var all := Note(observed, hint, hints);
    forall i, j | 0 <= i < j < |all| ensures Rank(all[i]) < Rank(all[j]) {
      assert all[i] in hints;
    }
  }

  /** A hint is given exactly when its observation was made, at most once, and in the order of the ranks. */
  lemma {:induction false} HintsNoted(uploaded: uint64, downloaded: uint64, remotes: nat, uploads: nat, suspicious: nat,
      description: string)
    ensures var hints := Hints(uploaded, downloaded, remotes, uploads, suspicious, description);
      && Ranked(hints, 5)
      && forall h :: h in hints <==>
        || (h == ElevatedUpload && uploaded >= 10_485_760)
        || (h == UploadDominant && Dominant(uploaded, downloaded))
        || (h == ManyRemotes && remotes >= 8)
        || (h == RepeatedUploads && uploads >= 5)
        || (h == Suspicious(description) && suspicious > 0)
  {
    hide Note, Ranked, Dominant;
    var none: seq<Hint> := [];
    assert Ranked(none, 0) by { NothingRanked(); }
    var a := Note(uploaded >= ELEVATED_UPLOAD_BYTES, ElevatedUpload, none);
    var b := Note(Dominant(uploaded, downloaded), UploadDominant, a);
    var c := Note(remotes >= MANY_REMOTE_ENDPOINTS, ManyRemotes, b);
    var d := Note(uploads >= REPEATED_UPLOAD_EVENTS, RepeatedUploads, c);
    Noted(uploaded >= ELEVATED_UPLOAD_BYTES, ElevatedUpload, none);
    Noted(Dominant(uploaded, downloaded), UploadDominant, a);
    Noted(remotes >= MANY_REMOTE_ENDPOINTS, ManyRemotes, b);
    Noted(uploads >= REPEATED_UPLOAD_EVENTS, RepeatedUploads, c);
    Noted(suspicious > 0, Suspicious(description), d);
  }

  lemma {:induction false} NothingRanked()
    ensures Ranked([], 0)
  {
  }

  /** A summary's hints say what they mean: ten mebibytes sent; a mebibyte and five times as much sent as
  received, as long as this product fits 64 bits; eight destinations; five uploads; a suspicious event. */
  lemma {:induction false} HintsMean(x: Summary, s: seq<Event>)
    requires Summarizes(x, s) && s != []
    ensures Ranked(x.behaviorHints, 5)
    ensures ElevatedUpload in x.behaviorHints <==> x.totalUploadedBytes >= 10_485_760
    ensures x.totalDownloadedBytes * 5 < TWO_TO_THE_64 ==> (UploadDominant in x.behaviorHints <==>
      x.totalUploadedBytes >= 1_048_576 && x.totalUploadedBytes >= x.totalDownloadedBytes * 5)
    ensures ManyRemotes in x.behaviorHints <==> |Remotes(s)| >= 8
    ensures RepeatedUploads in x.behaviorHints <==> |Places(s, UPLOAD_ACTIVITY)| >= 5
    ensures forall text :: Suspicious(text) in x.behaviorHints <==>
      Places(s, SUSPICIOUS_ACTIVITY) != {} && text == FirstDescription(s)
  {
    hide Remotes, Count, FirstDescription, FirstName, Spans, Total, Peaks, MostActive, Dominant, Hints, Ranked, Places;
    DominanceIsSound(x.totalDownloadedBytes);
    CountMeans(s, UPLOAD_ACTIVITY);
    CountMeans(s, SUSPICIOUS_ACTIVITY);
    HintsNoted(x.totalUploadedBytes, x.totalDownloadedBytes, |Remotes(s)|, Count(s, UPLOAD_ACTIVITY),
      Count(s, SUSPICIOUS_ACTIVITY), FirstDescription(s));
  }

  function Places(s: seq<Event>, t: ActivityType): set<nat> {
    set i: nat | i < |s| && s[i].eventType == t
  }

  /** An event counts if it is of the kind. */
  lemma {:induction false} CountMeans(s: seq<Event>, t: ActivityType)
    ensures Count(s, t) == |Places(s, t)|
  {
    hide Count, Places;
    if s == [] {
      NoPlaces(t);
    } else {
      var front, e := s[..|s| - 1], s[|s| - 1];
      assert s == front + [e];
      CountMeans(front, t);
      CountStep(front, e, t);
      PlacesStep(front, e, t);
    }
  }

  lemma {:induction false} NoPlaces(t: ActivityType)
    ensures Count([], t) == 0 && Places([], t) == {}
  {
  }

  lemma {:induction false} PlacesStep(s: seq<Event>, e: Event, t: ActivityType)
    ensures |Places(s + [e], t)| == |Places(s, t)| + if e.eventType == t then 1 else 0
  {
    var before, after := Places(s, t), Places(s + [e], t);
    assert forall i: nat | i < |s| :: i in after <==> i in before;
    assert after == if e.eventType == t then before + {|s|} else before;
  }

  /** The hints without the description that the last one quotes. */
  function Undescribed(hints: seq<Hint>): seq<Hint> {
    seq(|hints|, i requires 0 <= i < |hints| => if hints[i].Suspicious? then Suspicious("") else hints[i])
  }

  lemma {:induction false} HintsUndescribed(x: Summary, s: seq<Event>)
    requires Summarizes(x, s) && s != []
    ensures Undescribed(x.behaviorHints) == Hints(
      x.totalUploadedBytes, x.totalDownloadedBytes, |Remotes(s)|, Count(s, UPLOAD_ACTIVITY),
        Count(s, SUSPICIOUS_ACTIVITY), "")
  {
    hide Hints, Remotes, Count, FirstDescription, FirstName, Spans, Total, Wrap, Peaks, MostActive;
    HintsWithoutDescription(
      x.totalUploadedBytes, x.totalDownloadedBytes, |Remotes(s)|, Count(s, UPLOAD_ACTIVITY),
        Count(s, SUSPICIOUS_ACTIVITY),
      FirstDescription(s));
  }

  lemma {:induction false} HintsWithoutDescription(uploaded: uint64, downloaded: uint64, remotes: nat, uploads: nat,
      suspicious: nat, description: string)
    ensures Undescribed(Hints(uploaded, downloaded, remotes, uploads, suspicious, description))
      == Hints(uploaded, downloaded, remotes, uploads, suspicious, "")
  {
    hide Dominant;
  }

  /** Times, counts, totals and hints, but for the description a hint quotes, do not depend on the order
  of the events. */
  lemma {:induction false} SummaryPermutes(x: Summary, s: seq<Event>, y: Summary, t: seq<Event>)
    requires multiset(s) == multiset(t) && Summarizes(x, s) && Summarizes(y, t)
    ensures x.firstSeen == y.firstSeen && x.lastSeen == y.lastSeen
    ensures x.remoteEndpointCount == y.remoteEndpointCount && x.connectionOpenCount == y.connectionOpenCount
    ensures x.totalUploadedBytes == y.totalUploadedBytes && x.totalDownloadedBytes == y.totalDownloadedBytes
    ensures MostActive(x.mostActiveDestination, t)
    ensures Undescribed(x.behaviorHints) == Undescribed(y.behaviorHints)
  {
    hide StatsOf, IsMoreActive, FirstName, FirstDescription, Hints, Total, Wrap, Filter, Peak;
    SameMembers(s, t);
    forall r ensures StatsOf(s, r) == StatsOf(t, r) {
      StatsPermute(s, t, r);
    }
    SameTimes(s, t);
    SamePeaks(s, t, Upload);
    SamePeaks(s, t, Download);
    CountPermutes(s, t, OfType(CONNECTION_OPENED));
    CountPermutes(s, t, OfType(UPLOAD_ACTIVITY));
    CountPermutes(s, t, OfType(SUSPICIOUS_ACTIVITY));
    if s != [] {
      assert t != [];
      HintsUndescribed(x, s);
      HintsUndescribed(y, t);
    }
  }

  lemma {:induction false} SameTimes(s: seq<Event>, t: seq<Event>)
    requires forall e :: e in s <==> e in t
    ensures Times(s) == Times(t)
  {
    forall i | 0 <= i < |s| ensures s[i].timestamp in Times(t) {
      assert s[i] in t;
    }
    forall i | 0 <= i < |t| ensures t[i].timestamp in Times(s) {
      assert t[i] in s;
    }
  }

  lemma {:induction false} SamePeak(s: seq<Event>, t: seq<Event>, r: string, d: Direction)
    requires forall e :: e in s <==> e in t
    ensures Peak(s, r, d) == Peak(t, r, d)
  {
    hide Peak;
  }

  lemma {:induction false} SamePeaks(s: seq<Event>, t: seq<Event>, d: Direction)
    requires multiset(s) == multiset(t)
    ensures Peaks(s, d) == Peaks(t, d)
  {
    hide Peak, Remotes;
    SameMembers(s, t);
    forall r | r in Remotes(s) ensures Peak(s, r, d) == Peak(t, r, d) {
      SamePeak(s, t, r, d);
    }
  }

  // ----- The loops

  lemma {:induction false} SpanStep(first: Time, last: Time, s: seq<Event>, e: Event, all: seq<Event>)
    requires Spans(first, last, s, all) && e.timestamp in Times(all)
    ensures Spans(if e.timestamp < first then e.timestamp else first, if e.timestamp > last then e.timestamp
      else last, s + [e], all)
  {
    assert (s + [e])[|s|] == e && forall i | 0 <= i < |s| :: (s + [e])[i] == s[i];
    assert Times(s + [e]) == Times(s) + {e.timestamp};
  }

  lemma {:induction false} CountStep(s: seq<Event>, e: Event, t: ActivityType)
    ensures Count(s + [e], t) == Count(s, t) + if e.eventType == t then 1 else 0
  {
    hide Filter;
    FilterStep(s, e, OfType(t));
  }

  lemma {:induction false} TextStep(s: seq<Event>, e: Event)
    ensures FirstName(s + [e]) == if FirstName(s) != "" then FirstName(s) else e.processName
    ensures FirstDescription(s + [e]) ==
      if FirstDescription(s) != "" || e.eventType != SUSPICIOUS_ACTIVITY then FirstDescription(s) else e.description
  {
    assert (s + [e])[..|s|] == s;
  }

  lemma {:induction false} TalliedPeaks(m: map<string, DestinationStats>, s: seq<Event>, d: Direction)
    requires Tallied(m, s)
    ensures PeaksIn(m, {}, d) == Peaks(s, d)
  {
    hide Peak, Filter, Remotes;
    forall r | r in m ensures m[r].Bytes(d) == Peak(s, r, d) {
      assert m[r] == StatsOf(s, r);
    }
  }

  method BuildBehaviorHints(uploaded: uint64, downloaded: uint64, remotes: nat, uploadEventCount: nat,
      suspiciousEventCount: nat, description: string)
    returns (hints: seq<Hint>)
    ensures hints == Hints(uploaded, downloaded, remotes, uploadEventCount, suspiciousEventCount, description)
  {
    hide Dominant;
    hints := [];
    if uploaded >= ELEVATED_UPLOAD_BYTES {
      hints := hints + [ElevatedUpload];
    }
    if Dominant(uploaded, downloaded) {
      hints := hints + [UploadDominant];
    }
    if remotes >= MANY_REMOTE_ENDPOINTS {
      hints := hints + [ManyRemotes];
    }
    if uploadEventCount >= REPEATED_UPLOAD_EVENTS {
      hints := hints + [RepeatedUploads];
    }
    if suspiciousEventCount > 0 {
      hints := hints + [Suspicious(description)];
    }
  }

  method Summarize(events: seq<Event>) returns (summary: Summary)
    ensures Summarizes(summary, events)
  {
    hide Count, FirstName, FirstDescription, Total, Wrap, Hints, Bump, Tallied, Remotes, Times, Spans, Chosen,
      MostActive, PeaksIn, Peaks, Summarizes;
    if events == [] {
      EmptySummary();
      return EMPTY_SUMMARY;
    }
    var processId, processName := events[0].processId, events[0].processName;
    var firstSeen, lastSeen := events[0].timestamp, events[0].timestamp;
    var remotes: set<string> := {};
    var opens, uploads, suspicious := 0, 0, 0;
    var description := "";
    var byDestination: map<string, DestinationStats> := map[];
    StartOfLoop(events);
    for i := 0 to |events|
      invariant i > 0 ==> processId == events[i - 1].processId
      invariant processName == if i == 0 then events[0].processName else FirstName(events[..i])
      invariant Spans(firstSeen, lastSeen, events[..i], events)
      invariant opens == Count(events[..i], CONNECTION_OPENED) && uploads == Count(events[..i], UPLOAD_ACTIVITY)
      invariant suspicious == Count(events[..i], SUSPICIOUS_ACTIVITY)
      invariant description == FirstDescription(events[..i])
      invariant remotes == Remotes(events[..i]) && Tallied(byDestination, events[..i])
    {
      var event, before := events[i], events[..i];
      assert events[..i + 1] == before + [event];
      CountStep(before, event, CONNECTION_OPENED);
      CountStep(before, event, UPLOAD_ACTIVITY);
      CountStep(before, event, SUSPICIOUS_ACTIVITY);
      TimesMember(events, i);
      SpanStep(firstSeen, lastSeen, before, event, events);
      TextStep(before, event);
      TallyStep(byDestination, before, event);
      processId := event.processId;
      if processName == "" && event.processName != "" {
        processName := event.processName;
      }
      if event.timestamp < firstSeen {
        firstSeen := event.timestamp;
      }
      if event.timestamp > lastSeen {
        lastSeen := event.timestamp;
      }
      if event.eventType == CONNECTION_OPENED {
        opens := opens + 1;
      }
      if event.eventType == UPLOAD_ACTIVITY {
        uploads := uploads + 1;
      }
      if event.eventType == SUSPICIOUS_ACTIVITY {
        suspicious := suspicious + 1;
        if event.description != "" && description == "" {
          description := event.description;
        }
      }
      var r := event.remoteAddress;
      if r != "" {
        remotes := remotes + {r};
        byDestination := byDestination[r := Bump(if r in byDestination then byDestination[r] else NO_STATS, event)];
      }
    }
    assert events[..|events|] == events;
    NamelessRemote(byDestination, events);
    var uploaded, downloaded, best := TotalsAndBest(byDestination);
    TalliedPeaks(byDestination, events, Upload);
    TalliedPeaks(byDestination, events, Download);
    ChosenIsMostActive(best, byDestination, events);
    var hints := BuildBehaviorHints(uploaded, downloaded, |remotes|, uploads, suspicious, description);
    summary := Summary(processId, processName, firstSeen, lastSeen, |remotes|, opens, uploaded, downloaded, best,
      hints);
    SummaryOf(summary, events);
  }

  lemma {:induction false} EmptySummary()
    ensures Summarizes(EMPTY_SUMMARY, [])
  {
  }

  lemma {:induction false} SummaryOf(x: Summary, s: seq<Event>)
    requires s != [] && x.processId == s[|s| - 1].processId && x.processName == FirstName(s)
    requires Spans(x.firstSeen, x.lastSeen, s, s)
    requires x.remoteEndpointCount == |Remotes(s)| && x.connectionOpenCount == Count(s, CONNECTION_OPENED)
    requires x.totalUploadedBytes == Wrap(Total(Peaks(s, Upload))) &&
      x.totalDownloadedBytes == Wrap(Total(Peaks(s, Download)))
    requires MostActive(x.mostActiveDestination, s)
    requires x.behaviorHints == Hints(x.totalUploadedBytes, x.totalDownloadedBytes, |Remotes(s)|,
      Count(s, UPLOAD_ACTIVITY), Count(s, SUSPICIOUS_ACTIVITY), FirstDescription(s))
    ensures Summarizes(x, s)
  {
    hide Count, FirstName, FirstDescription, Total, Wrap, Hints, Remotes, Times, MostActive, Peaks;
  }

  lemma {:induction false} StartOfLoop(events: seq<Event>)
    requires events != []
    ensures FirstName(events[..0]) == "" && FirstDescription(events[..0]) == ""
    ensures Spans(events[0].timestamp, events[0].timestamp, events[..0], events)
    ensures Remotes(events[..0]) == {} && Tallied(map[], events[..0])
    ensures forall t :: Count(events[..0], t) == 0
  {
  }

  lemma {:induction false} TimesMember(s: seq<Event>, i: nat)
    requires i < |s|
    ensures s[i].timestamp in Times(s)
  {
  }

  lemma {:induction false} ChosenIsMostActive(best: string, m: map<string, DestinationStats>, s: seq<Event>)
    requires Tallied(m, s) && Chosen(best, m)
    ensures MostActive(best, s)
  {
    hide StatsOf, IsMoreActive, Remotes;
  }

  lemma {:induction false} NamelessRemote(m: map<string, DestinationStats>, s: seq<Event>)
    requires Tallied(m, s)
    ensures "" !in m
  {
  }

  // ----- The class

  class TimelineSummaryBuilder {
    var events: seq<Event>

    constructor (events: seq<Event>)
      ensures this.events == events
    {
      this.events := events;
    }

    method SetEvents(events: seq<Event>)
      modifies this
      ensures this.events == events
    {
      this.events := events;
    }

    method ForProcessId(pid: uint32) returns (summary: Summary)
      ensures Summarizes(summary, Filter(events, OfProcess(pid)))
    {
      var matched := Matching(events, OfProcess(pid));
      summary := Summarize(matched);
    }

    method ForProcessName(name: string) returns (summary: Summary)
      ensures Summarizes(summary, Filter(events, Named(name)))
    {
      var matched := Matching(events, Named(name));
      summary := Summarize(matched);
    }

    /** One summary a process, by ascending PID, each of them what `ForProcessId` returns. */
    method ForAllProcesses() returns (summaries: seq<Summary>)
      ensures forall e | e in events :: Covers(summaries, e.processId)
      ensures Ascending(summaries)
      ensures forall x | x in summaries :: Describes(x, events)
    {
      hide Filter, Summarizes;
      var byPid: map<uint32, seq<Event>> := map[];
      NoBuckets();
      for i := 0 to |events|
        invariant Bucketed(events[..i], byPid)
      {
        var event := events[i];
        assert events[..i + 1] == events[..i] + [event];
        Bucket(events[..i], byPid, event);
        var pid := event.processId;
        byPid := byPid[pid := (if pid in byPid then byPid[pid] else []) + [event]];
      }
      assert events[..|events|] == events;
      summaries := SummarizeBuckets(events, byPid);
    }
  }

  /** `x` is the summary of its process. */
  ghost predicate Describes(x: Summary, s: seq<Event>) {
    var own := Filter(s, OfProcess(x.processId));
    own != [] && Summarizes(x, own)
  }

  ghost predicate Covers(summaries: seq<Summary>, pid: uint32) {
    exists i | 0 <= i < |summaries| :: summaries[i].processId == pid
  }

  ghost predicate Ascending(summaries: seq<Summary>) {
    forall i, j | 0 <= i < j < |summaries| :: summaries[i].processId < summaries[j].processId
  }

  ghost predicate Below(summaries: seq<Summary>, rest: set<uint32>) {
    forall i, pid | 0 <= i < |summaries| && pid in rest :: summaries[i].processId < pid
  }

  lemma {:induction false} NothingYet(rest: set<uint32>)
    ensures Ascending([]) && Below([], rest)
  {
  }

  lemma {:induction false} AppendNext(summaries: seq<Summary>, rest: set<uint32>, x: Summary)
    requires Ascending(summaries) && Below(summaries, rest)
    requires x.processId in rest && forall q | q in rest :: x.processId <= q
    ensures Ascending(summaries + [x]) && Below(summaries + [x], rest - {x.processId})
  {
  }

  lemma {:induction false} BucketAt(s: seq<Event>, buckets: map<uint32, seq<Event>>, pid: uint32)
    requires Bucketed(s, buckets) && pid in buckets
    ensures buckets[pid] == Filter(s, OfProcess(pid)) != []
  {
  }

  /** The loop over the ordered map. */
  method SummarizeBuckets(s: seq<Event>, byPid: map<uint32, seq<Event>>) returns (summaries: seq<Summary>)
    requires Bucketed(s, byPid)
    ensures forall pid | pid in byPid :: Covers(summaries, pid)
    ensures Ascending(summaries)
    ensures forall x | x in summaries :: Describes(x, s)
  {
    hide Filter, Summarizes, Describes, Covers, Ascending, Below, Bucketed;
    summaries := [];
    NothingYet(byPid.Keys);
    var rest := byPid.Keys;
    while rest != {}
      invariant rest <= byPid.Keys
      invariant Ascending(summaries) && Below(summaries, rest)
      invariant forall pid | pid in byPid && pid !in rest :: Covers(summaries, pid)
      invariant forall x | x in summaries :: Describes(x, s)
    {
      ghost var least := Least(rest);
      var pid :| pid in rest && forall q | q in rest :: pid <= q;
      BucketAt(s, byPid, pid);
      var summary := Summarize(byPid[pid]);
      SummaryOwner(summary, s, pid);
      CoversMore(summaries, summary);
      AppendNext(summaries, rest, summary);
      rest := rest - {pid};
      summaries := summaries + [summary];
    }
  }

  lemma {:induction false} CoversMore(summaries: seq<Summary>, x: Summary)
    ensures Covers(summaries + [x], x.processId)
    ensures forall pid | Covers(summaries, pid) :: Covers(summaries + [x], pid)
  {
    var all := summaries + [x];
    assert all[|summaries|] == x;
    assert forall i | 0 <= i < |summaries| :: all[i] == summaries[i];
  }

  lemma {:induction false} Least(s: set<uint32>) returns (least: uint32)
    requires s != {}
    ensures least in s && forall q | q in s :: least <= q
    decreases |s|
  {
    var p :| p in s;
    var below := set x | x in s && x < p;
    if below == {} {
      least := p;
      forall q | q in s ensures least <= q {
        assert q < p ==> q in below;
      }
    } else {
      assert p in s && p !in below;
      SmallerSet(below, s);
      least := Least(below);
      forall q | q in s ensures least <= q {
        assert q < p ==> q in below;
      }
    }
  }

  lemma {:induction false} SmallerSet(t: set<uint32>, s: set<uint32>)
    requires t < s
    ensures |t| < |s|
  {
    assert s == t + (s - t);
    assert |s| == |t| + |s - t|;
  }

  lemma {:induction false} SummaryOwner(summary: Summary, s: seq<Event>, pid: uint32)
    requires Filter(s, OfProcess(pid)) != [] && Summarizes(summary, Filter(s, OfProcess(pid)))
    ensures summary.processId == pid && Describes(summary, s)
  {
    hide Filter;
    var f := Filter(s, OfProcess(pid));
    FilterMembers(s, OfProcess(pid));
    assert f[|f| - 1] in f;
  }
}
