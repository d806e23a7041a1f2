/** The timeline against the accounting: the results of the one-way trackers are collected after every
update, with process and connection events, the collected events are summarised by process, and the summary
totals are compared with what TransferRateTracker reports for the process on the same snapshots. */
module EndToEnd {
  import opened Model
  import opened FiniteSums
  import opened TransferAccounting
  import opened Samples
  import opened CollectedSessions
  import opened Timeline
  import opened TimelineEventCollector
  import opened TimelineSummaryBuilder
  import TransferTheorems
  import ConnectionTracker
  import O = OneWayTracker
  import B = TransferRateTracker
  import C = TimelineEventCollector
  import S = TimelineSummaryBuilder

  // ----- When nothing is lost

  /** A sample that was shown: not the first of its session, and with a remote. */
  ghost predicate Shown(v: Trace, t: Trace, pid: uint32, k: string) {
    Within(v, t) && Continues(v, pid, k) && RemoteOfKey(v, k) != ""
  }

  /** Shown samples have the same remote exactly if they belong to the same session. */
  ghost predicate OwnRemotes(t: Trace, pid: uint32) {
    forall v, j, w, k | Shown(v, t, pid, j) && Shown(w, t, pid, k) ::
      RemoteOfKey(v, j) == RemoteOfKey(w, k) <==> SameSession(v, j, w, k)
  }

  /** Every session with more than one sample has a remote at its last one. */
  ghost predicate EndsShown(t: Trace, pid: uint32) {
    forall v, k | Within(v, t) && Continues(v, pid, k) && Ends(v, t, k) :: RemoteOfKey(v, k) != ""
  }

  /** Every session of the process has a remote of its own, and is at it when it ends. */
  ghost predicate Lossless(t: Trace, pid: uint32) {
    OwnRemotes(t, pid) && EndsShown(t, pid)
  }

  /** A remote that a session was shown under is the remote of one of its samples. */
  lemma {:induction false} ShownAt(t: Trace, pid: uint32, k: string, r: string) returns (v: Trace)
    requires Owns(t, pid, k) && r in ShownRemotes(t, k)
    ensures Shown(v, t, pid, k) && RemoteOfKey(v, k) == r && SameSession(v, k, t, k)
  {
    hide FirstRows, RemoteOf;
    assert Continues(t, pid, k);
    OwnedBefore(t, pid, k);
    if r == RemoteOfKey(t, k) {
      v := t;
    } else {
      v := ShownAt(t.before, pid, k, r);
    }
  }

  lemma {:induction false} OwnRemotesAreOne(t: Trace, full: Trace, pid: uint32)
    requires Within(t, full) && OwnRemotes(full, pid)
    ensures OneRemotePerSession(t, pid)
    decreases t
  {
    hide FirstRows, RemoteOf, ShownRemotes, Opening;
    if t != Start {
      WithinBefore(t, full);
      OwnRemotesAreOne(t.before, full, pid);
      forall k, r, q | Owns(t, pid, k) && r in ShownRemotes(t, k) && q in ShownRemotes(t, k) ensures r == q {
        var v := ShownAt(t, pid, k, r);
        var w := ShownAt(t, pid, k, q);
        WithinTransitive(v, t, full);
        WithinTransitive(w, t, full);
      }
    }
  }

  /** Every collected event with bytes shows those of a sample. */
  lemma {:induction false} EventSource(rounds: seq<Round>, t: Trace, d: Direction, pid: uint32, e: Event)
    returns (v: Trace, k: string)
    requires Visits(rounds, t, d) && TraceBytes(t, pid, d) < TWO_TO_THE_64 && e in Collected(rounds, t, d, pid)
    requires e.Bytes(d) != 0
    ensures Within(v, t) && Continues(v, pid, k)
    ensures RemoteOfKey(v, k) == e.remoteAddress && SessionBytes(v, k, d) == e.Bytes(d)
    decreases t
  {
    hide Collected, LastRows, PriorRows, SessionBytes, TraceBytes, RemoteOf, Total, RemoteOfKey, Visits;
    if t == Start {
      NothingCollected(rounds, t, d, pid);
      assert false;
    } else {
      UnfoldVisits(rounds, t, d);
      if e in Collected(Earlier(rounds), t.before, d, pid) {
        UnfoldTraceBytes(t, pid, d);
        v, k := EventSource(Earlier(rounds), t.before, d, pid, e);
      } else {
        k := NewEventSource(rounds, t, d, pid, e);
        v := t;
        RemoteOfOwned(t, pid, k);
      }
    }
  }

  /** The peak of a session's own remote is at most what the session has shown. */
  lemma {:induction false} PeakIsShown(rounds: seq<Round>, t: Trace, full: Trace, d: Direction, pid: uint32, k: string,
      x: Trace)
    requires Visits(rounds, t, d) && Within(t, full) && OwnRemotes(full, pid) && TraceBytes(t, pid, d) < TWO_TO_THE_64
    requires Owns(t, pid, k) && Shown(x, full, pid, k) && SameSession(x, k, t, k)
    ensures Peak(Collected(rounds, t, d, pid), RemoteOfKey(x, k), d) <= SessionBytes(t, k, d) - Unshown(t, k, d)
    decreases t
  {
    hide Peak, Collected, FirstRows, TraceBytes, RemoteOf, Total, Visits, OwnRemotes, Unshown, Opening;
    StartOwnsNothing(t, pid, k);
    UnfoldVisits(rounds, t, d);
    UnfoldTraceBytes(t, pid, d);
    WithinBefore(t, full);
    UnshownInSession(t, k, d);
    var r, next, was := RemoteOfKey(x, k), Collected(rounds, t, d, pid), Collected(Earlier(rounds), t.before, d, pid);
    if Peak(next, r, d) > Peak(was, r, d) {
      var j := GrowthHasSource(rounds, t, d, pid, r);
      SameRemoteSameSession(t, j, x, k, full, pid);
      NothingUnshown(t, k, d);
    } else if Continues(t, pid, k) {
      OwnedBefore(t, pid, k);
      OpeningContinues(t, pid, k);
      PeakIsShown(Earlier(rounds), t.before, full, d, pid, k, x);
      UnshownContinues(t, pid, k, d);
    } else {
      NothingUnshown(t, k, d);
      if Peak(was, r, d) > 0 {
        var e :| e in was && e.remoteAddress == r && e.Bytes(d) == Peak(was, r, d);
        var y, j := EventSource(Earlier(rounds), t.before, d, pid, e);
        WithinTransitive(y, t.before, full);
        SameRemoteSameSession(y, j, x, k, full, pid);
        OpeningBound(y, pid, j);
        WithinLength(y, t.before);
        OpeningStarts(t, pid, k);
        assert false;
      }
    }
  }

  lemma {:induction false} SameRemoteSameSession(v: Trace, j: string, w: Trace, k: string, t: Trace, pid: uint32)
    requires OwnRemotes(t, pid) && Within(v, t) && Continues(v, pid, j) && Shown(w, t, pid, k)
    requires RemoteOfKey(v, j) == RemoteOfKey(w, k)
    ensures SameSession(v, j, w, k)
  {
    hide FirstRows, RemoteOf, Opening;
    assert Shown(v, t, pid, j);
  }

  lemma {:induction false} NothingUnshown(t: Trace, k: string, d: Direction)
    requires k !in PriorRows(t) || k !in LastRows(t) || RemoteOfKey(t, k) != ""
    ensures Unshown(t, k, d) == 0
    ensures k !in PriorRows(t) || k !in LastRows(t) ==> SessionBytes(t, k, d) == 0
  {
    hide FirstRows, RemoteOf;
  }

  lemma {:induction false} UnshownContinues(t: Trace, pid: uint32, k: string, d: Direction)
    requires Continues(t, pid, k)
    ensures t != Start
    ensures SessionBytes(t.before, k, d) - Unshown(t.before, k, d) <= SessionBytes(t, k, d) - Unshown(t, k, d)
  {
    hide FirstRows, RemoteOf;
    UnshownInSession(t.before, k, d);
  }

  /** Each session that shows its remote raises the remote's peak by everything it had pending. */
  lemma {:induction false} ShowingRaisesPeak(rounds: seq<Round>, t: Trace, full: Trace, d: Direction, pid: uint32,
      k: string)
    requires t != Start && Visits(rounds, t, d) && TraceBytes(t, pid, d) < TWO_TO_THE_64
    requires Within(t, full) && OwnRemotes(full, pid) && Continues(t, pid, k) && RemoteOfKey(t, k) != ""
    ensures var r := RemoteOfKey(t, k);
      Peak(Collected(Earlier(rounds), t.before, d, pid), r, d) + Pending(t, pid, d)[k]
        <= Peak(Collected(rounds, t, d, pid), r, d)
  {
    hide Peak, Collected, FirstRows, TraceBytes, RemoteOf, Total, Visits, OwnRemotes, Unshown, Opening;
    UnfoldVisits(rounds, t, d);
    UnfoldTraceBytes(t, pid, d);
    WithinBefore(t, full);
    OwnedBefore(t, pid, k);
    OpeningContinues(t, pid, k);
    UnshownInSession(t.before, k, d);
    PeakIsShown(Earlier(rounds), t.before, full, d, pid, k, t);
    RemoteOfOwned(t, pid, k);
    if SessionBytes(t, k, d) != 0 {
      var e := Covered(rounds, t, d, pid, k);
    }
  }

  lemma {:induction false} GrowthComplete(rounds: seq<Round>, t: Trace, full: Trace, d: Direction, pid: uint32)
    requires t != Start && Visits(rounds, t, d) && TraceBytes(t, pid, d) < TWO_TO_THE_64
    requires Within(t, full) && OwnRemotes(full, pid)
    ensures Total(ShownNow(t, pid, d)) <=
      Total(Peaks(Collected(rounds, t, d, pid), d)) - Total(Peaks(Collected(Earlier(rounds), t.before, d, pid), d))
  {
    hide Peak, Peaks, Collected, Remotes, FirstRows, TraceBytes, RemoteOf, Total, Unshown, RemoteOfKey, OwnRemotes,
      Opening, Visits;
    UnfoldVisits(rounds, t, d);
    var next, was := Collected(rounds, t, d, pid), Collected(Earlier(rounds), t.before, d, pid);
    CollectedGrows(rounds, t, d, pid);
    GrowthTotal(was, next, d);
    var growth, shown := Growth(Remotes(next), was, next, d), ShownNow(t, pid, d);
    var goesTo := (k, r) => Shown(t, full, pid, k) && RemoteOfKey(t, k) == r;
    forall k | k in shown && shown[k] > 0 ensures exists r :: r in growth && goesTo(k, r) && shown[k] <= growth[r] {
      var r := RemoteOfKey(t, k);
      ShowingRaisesPeak(rounds, t, full, d, pid, k);
      if r !in Remotes(next) {
        UnreachedPeak(next, r, d);
      }
      assert goesTo(k, r);
    }
    forall j, k, r | goesTo(j, r) && goesTo(k, r) ensures j == k {
      SameRemoteSameSession(t, j, t, k, full, pid);
    }
    TotalDominated(shown, growth, goesTo);
  }

  /** A session that a snapshot ended had shown everything. */
  lemma {:induction false} EndedAreShown(t: Trace, full: Trace, pid: uint32, d: Direction, k: string)
    requires t != Start && Within(t, full) && EndsShown(full, pid)
    requires Owns(t.before, pid, k) && k !in LastRows(t)
    ensures Unshown(t.before, k, d) == 0
  {
    hide FirstRows, RemoteOf;
    WithinBefore(t, full);
    if Continues(t.before, pid, k) {
      forall w | Within(w, full) && w != Start && w.before == t.before ensures k !in LastRows(w) {
        WithinUnique(w, t, full);
      }
      assert Ends(t.before, full, k);
    }
  }

  lemma {:induction false} PendingComplete(t: Trace, full: Trace, pid: uint32, d: Direction)
    requires t != Start && Within(t, full) && EndsShown(full, pid)
    ensures Total(Pending(t, pid, d))
      == Total(UnshownOf(t.before, pid, d)) + Total(StepDeltas(PriorRows(t), LastRows(t), pid, d))
  {
    hide FirstRows, Total, RemoteOf, Unshown, EndsShown;
    var pending, was := Pending(t, pid, d), UnshownOf(t.before, pid, d);
    var deltas := StepDeltas(PriorRows(t), LastRows(t), pid, d);
    PriorIsLast(t);
    forall k | k in pending ensures k in was && k in deltas {
      OwnedBefore(t, pid, k);
      DeltasOf(t, pid, d, k);
    }
    forall k | k in deltas ensures k in pending {
      DeltasOf(t, pid, d, k);
    }
    var continued, ended := Restrict(was, pending.Keys), Restrict(was, was.Keys - pending.Keys);
    forall k | k in ended ensures ended[k] == 0 {
      StaysOwned(t, pid, k);
      EndedAreShown(t, full, pid, d, k);
    }
    TotalZero(ended);
    TotalSplit(was, continued, ended);
    TotalPlus(pending, continued, deltas);
  }

  /** Along a lossless run every byte transferred is in a peak, or still to be shown. */
  lemma {:induction false} PeaksAccount(rounds: seq<Round>, t: Trace, full: Trace, d: Direction, pid: uint32)
    requires Visits(rounds, t, d) && TraceBytes(t, pid, d) < TWO_TO_THE_64
    requires Within(t, full) && Lossless(full, pid)
    ensures Total(Peaks(Collected(rounds, t, d, pid), d)) + Total(UnshownOf(t, pid, d)) == TraceBytes(t, pid, d)
    decreases t
  {
    OwnRemotesAreOne(t, full, pid);
    PeaksBounded(rounds, t, d, pid);
    hide FirstRows, Total, Peak, O.ActiveOneWay, StepDeltas, Kept, Unshown, OwnRemotes, EndsShown;
    if t == Start {
      NothingCollected(rounds, t, d, pid);
    } else {
      hide Collected, Peaks, UnshownOf, TraceBytes;
      UnfoldVisits(rounds, t, d);
      UnfoldTraceBytes(t, pid, d);
      WithinBefore(t, full);
      PeaksAccount(Earlier(rounds), t.before, full, d, pid);
      GrowthComplete(rounds, t, full, d, pid);
      PendingSplits(t, pid, d);
      PendingComplete(t, full, pid, d);
    }
  }

  /** If every session has a remote of its own, and is at it when it ends, the peaks add up to
  everything the process transferred. */
  lemma {:induction false} PeaksComplete(rounds: seq<Round>, t: Trace, d: Direction, pid: uint32)
    requires Visits(rounds, t, d) && Lossless(t, pid) && TraceBytes(t, pid, d) < TWO_TO_THE_64
    ensures Total(Peaks(Collected(rounds, t, d, pid), d)) == TraceBytes(t, pid, d)
  {
    hide FirstRows, Total, Peak, Collected, Peaks, TraceBytes, Unshown, Visits, OwnRemotes, RemoteOf;
    assert Within(t, t);
    NothingAfter(t);
    PeaksAccount(rounds, t, t, d, pid);
    forall k | k in UnshownOf(t, pid, d) ensures UnshownOf(t, pid, d)[k] == 0 {
      if Continues(t, pid, k) {
        assert Ends(t, t, k);
      }
      NothingUnshown(t, k, d);
    }
    TotalZero(UnshownOf(t, pid, d));
  }

  // ----- Summaries against reports

  function TotalBytes(x: Summary, d: Direction): uint64 {
    if d == Upload then x.totalUploadedBytes else x.totalDownloadedBytes
  }

  lemma {:induction false} SummaryTotal(x: Summary, s: seq<Event>, d: Direction)
    requires Summarizes(x, s)
    ensures TotalBytes(x, d) == Wrap(Total(Peaks(s, d)))
  {
    hide Total, Wrap, Peak, Remotes, MostActive, Hints, Filter, FirstName, FirstDescription, Spans;
    if s == [] {
      EmptyRemotes();
      TotalZero(Peaks(s, d));
      WrapSmall(0);
    }
  }

  lemma {:induction false} EmptyRemotes()
    ensures Remotes([]) == {}
  {
  }

  lemma {:induction false} FewerPeaks(s: seq<Event>, t: seq<Event>, d: Direction)
    requires forall e | e in s :: e in t
    ensures Total(Peaks(s, d)) <= Total(Peaks(t, d))
  {
    hide Peak, Remotes, Total;
    GrowthTotal(s, t, d);
  }

  /** The same snapshots, whatever the clock readings. */
  ghost predicate SameSnapshots(a: Trace, b: Trace) {
    if a == Start || b == Start then a == b
    else a.snapshots == b.snapshots && SameSnapshots(a.before, b.before)
  }

  /** Bytes do not depend on the clock. */
  lemma {:induction false} BytesIgnoreClocks(a: Trace, b: Trace, pid: uint32, d: Direction)
    requires SameSnapshots(a, b)
    ensures TraceBytes(a, pid, d) == TraceBytes(b, pid, d)
    decreases a
  {
    hide FirstRows, Total;
    if a != Start {
      BytesIgnoreClocks(a.before, b.before, pid, d);
    }
  }

  /** The end-to-end bound, for trackers that read their clocks independently: `trace` is the run of the
  one-way tracker, `other` that of the bandwidth tracker, and the collector takes other observations
  between its results.  Whatever part of the collected events is
  summarised (all of them, or what a bounded history kept), the summary total of a process never
  exceeds the total that the bandwidth tracker reports for it, as long as no session is shown under two
  remotes; it equals it if nothing was evicted and every session has a remote of its own. */
  lemma {:induction false} SummaryBound(rounds: seq<Round>, trace: Trace, other: Trace, d: Direction, pid: uint32,
      events: seq<Event>, x: Summary)
    requires Visits(rounds, trace, d) && SameSnapshots(trace, other) && TraceBytes(trace, pid, d) < TWO_TO_THE_64
    requires forall e | e in events :: e in Stored(Feed(rounds, trace, d))
    requires Summarizes(x, Filter(events, OfProcess(pid)))
    ensures OneRemotePerSession(trace, pid) ==> TotalBytes(x, d) <= Reported(other, pid, d)
    ensures Lossless(trace, pid) && (forall e | e in Stored(Feed(rounds, trace, d)) :: e in events) ==>
      TotalBytes(x, d) == Reported(other, pid, d)
  {
    hide Peak, Peaks, Remotes, Total, Filter, Stored, Feed, Wrap, TraceBytes, Reported, Summarizes, Lossless,
      OneRemotePerSession, UnshownOf;
    var part, whole := Filter(events, OfProcess(pid)), Collected(rounds, trace, d, pid);
    FilterMembers(events, OfProcess(pid));
    FilterMembers(Stored(Feed(rounds, trace, d)), OfProcess(pid));
    SummaryTotal(x, part, d);
    FewerPeaks(part, whole, d);
    BytesIgnoreClocks(trace, other, pid, d);
    TransferTheorems.TraceRefinement(other, pid, d);
    WrapSmall(TraceBytes(trace, pid, d));
    if OneRemotePerSession(trace, pid) {
      PeaksBounded(rounds, trace, d, pid);
      WrapSmall(Total(Peaks(part, d)));
    }
    if Lossless(trace, pid) && forall e | e in Stored(Feed(rounds, trace, d)) :: e in events {
      FewerPeaks(whole, part, d);
      PeaksComplete(rounds, trace, d, pid);
      WrapSmall(Total(Peaks(part, d)));
    }
  }

  // ----- The components together

  /** What one round of collection reads: a snapshot, the events of the other trackers, and the clock
  readings of the three transfer trackers. */
  datatype Reading = Reading(
    snapshots: seq<TransferSnapshot>,
    processEvents: seq<ProcessEvent>,
    connectionEvents: seq<ConnectionTracker.ConnectionEvent>,
    lookup: map<uint32, ProcessInfo>,
    bandwidthNow: Time,
    uploadNow: Time,
    downloadNow: Time)
  {
    function Others(): seq<Observation> {
      Creations(processEvents) + Changes(connectionEvents, lookup)
    }
  }

  datatype Reader = BandwidthReader | OneWayReader(d: Direction)

  function NowOf(r: Reading, reader: Reader): Time {
    match reader
    case BandwidthReader => r.bandwidthNow
    case OneWayReader(d) => if d == Upload then r.uploadNow else r.downloadNow
  }

  ghost function TraceOf(readings: seq<Reading>, reader: Reader): Trace {
    if readings == [] then Start
    else
      var r := readings[|readings| - 1];
      Then(TraceOf(readings[..|readings| - 1], reader), r.snapshots, NowOf(r, reader))
  }

  lemma {:induction false} TraceStep(readings: seq<Reading>, i: nat, reader: Reader)
    requires i < |readings|
    ensures TraceOf(readings[..i + 1], reader)
      == Then(TraceOf(readings[..i], reader), readings[i].snapshots, NowOf(readings[i], reader))
  {
    assert readings[..i + 1][..i] == readings[..i];
  }

  lemma {:induction false} TracesOfSame(readings: seq<Reading>, a: Reader, b: Reader)
    ensures SameSnapshots(TraceOf(readings, a), TraceOf(readings, b))
  {
    if readings != [] {
      TracesOfSame(readings[..|readings| - 1], a, b);
    }
  }

  lemma {:induction false} FeedStep(rounds: seq<Round>, trace: Trace, d: Direction, round: Round,
      snapshots: seq<TransferSnapshot>, now: Time)
    requires Visits(rounds, trace, d) && Enumerates(round.order, O.ActiveOneWay(Then(trace, snapshots, now), d).Keys)
    requires AllForeign(round.before, d) && AllForeign(round.after, d)
    ensures var next := Then(trace, snapshots, now);
      && Visits(rounds + [round], next, d)
      && Feed(rounds + [round], next, d) == Feed(rounds, trace, d)
        + (round.before + Transfers(Results(O.ActiveOneWay(next, d), round.order), d) + round.after)
  {
    hide FirstRows, O.ActiveOneWay, Transfers, AllForeign, Enumerates;
    assert (rounds + [round])[..|rounds|] == rounds;
  }

  /** The log is the feed of the direction's tracker. */
  ghost predicate Follows(log: seq<Observation>, rounds: seq<Round>, trace: Trace, d: Direction) {
    Visits(rounds, trace, d) && log == Feed(rounds, trace, d)
  }

  /** What a round collects, told for the uploads and for the downloads. */
  lemma {:induction false} CollectStep(log: seq<Observation>, r: Reading, up: seq<Round>, upTrace: Trace,
      upOrder: seq<string>, down: seq<Round>, downTrace: Trace, downOrder: seq<string>)
    returns (up': seq<Round>, down': seq<Round>)
    requires Follows(log, up, upTrace, Upload) && Follows(log, down, downTrace, Download)
    requires Enumerates(upOrder, O.ActiveOneWay(Then(upTrace, r.snapshots, r.uploadNow), Upload).Keys)
    requires Enumerates(downOrder, O.ActiveOneWay(Then(downTrace, r.snapshots, r.downloadNow), Download).Keys)
    ensures var upNext, downNext := Then(upTrace, r.snapshots, r.uploadNow),
        Then(downTrace, r.snapshots, r.downloadNow);
      var log' := log + Creations(r.processEvents) + Changes(r.connectionEvents, r.lookup)
        + Transfers(Results(O.ActiveOneWay(upNext, Upload), upOrder), Upload)
        + Transfers(Results(O.ActiveOneWay(downNext, Download), downOrder), Download);
      Follows(log', up', upNext, Upload) && Follows(log', down', downNext, Download)
  {
    hide FirstRows, O.ActiveOneWay, Transfers, AllForeign, Visits, Feed, Creations, Changes, Results;
    var upNext, downNext := Then(upTrace, r.snapshots, r.uploadNow), Then(downTrace, r.snapshots, r.downloadNow);
    var uploads, downloads := Results(O.ActiveOneWay(upNext, Upload), upOrder),
      Results(O.ActiveOneWay(downNext, Download), downOrder);
    OthersAreForeign(Upload, Download, r.processEvents, [], EPOCH, r.connectionEvents, r.lookup, downloads);
    OthersAreForeign(Download, Upload, r.processEvents, [], EPOCH, r.connectionEvents, r.lookup, uploads);
    ForeignConcat(Creations(r.processEvents), Changes(r.connectionEvents, r.lookup), Upload);
    ForeignConcat(Creations(r.processEvents), Changes(r.connectionEvents, r.lookup), Download);
    ForeignConcat(r.Others(), Transfers(uploads, Upload), Download);
    var upRound := Round(r.Others(), upOrder, Transfers(downloads, Download));
    var downRound := Round(r.Others() + Transfers(uploads, Upload), downOrder, []);
    NoneForeign(Download);
    FeedStep(up, upTrace, Upload, upRound, r.snapshots, r.uploadNow);
    FeedStep(down, downTrace, Download, downRound, r.snapshots, r.downloadNow);
    up', down' := up + [upRound], down + [downRound];
    Regroup(log, Creations(r.processEvents), Changes(r.connectionEvents, r.lookup), Transfers(uploads, Upload),
      Transfers(downloads, Download));
  }

  lemma {:induction false} Regroup<T>(log: seq<T>, a: seq<T>, b: seq<T>, c: seq<T>, e: seq<T>)
    ensures log + a + b + c + e == log + ((a + b) + c + e) == log + (((a + b) + c) + e + [])
  {
  }

  lemma {:induction false} ForeignConcat(a: seq<Observation>, b: seq<Observation>, d: Direction)
    requires AllForeign(a, d) && AllForeign(b, d)
    ensures AllForeign(a + b, d)
  {
    hide Foreign;
  }

  lemma {:induction false} NoneForeign(d: Direction)
    ensures AllForeign([], d)
  {
  }

  /** What a reader of the bandwidth tracker finds for a process. */
  method ReportedBytes(bandwidth: B.TransferRateTracker, pid: uint32, d: Direction) returns (reported: uint64)
    requires bandwidth.Valid()
    ensures reported == Reported(bandwidth.trace, pid, d)
  {
    hide FirstRows, Active, ActiveProcesses, ClosedProcesses, Closed, FirstSeen, ClosedConnections;
    ghost var active, closed := B.TotalsOf(bandwidth.activeProcessStats), B.TotalsOf(bandwidth.closedProcessStats);
    assert active == ActiveProcesses(bandwidth.trace) && closed == ClosedProcesses(bandwidth.trace);
    assert active.Keys == bandwidth.activeProcessStats.Keys && closed.Keys == bandwidth.closedProcessStats.Keys;
    if pid in bandwidth.activeProcessStats {
      return bandwidth.activeProcessStats[pid].totals.Bytes(d);
    }
    if pid in bandwidth.closedProcessStats {
      return bandwidth.closedProcessStats[pid].totals.Bytes(d);
    }
    return 0;
  }

  /** The summary total of a process against the reported bytes. */
  ghost predicate Agrees(trace: Trace, pid: uint32, d: Direction, summary: Summary, reported: uint64) {
    TraceBytes(trace, pid, d) < TWO_TO_THE_64 ==>
      && reported == TraceBytes(trace, pid, d)
      && (OneRemotePerSession(trace, pid) ==> TotalBytes(summary, d) <= reported)
      && (Lossless(trace, pid) ==> TotalBytes(summary, d) == reported)
  }

  lemma {:induction false} SummaryAgrees(log: seq<Observation>, rounds: seq<Round>, readings: seq<Reading>,
      d: Direction, pid: uint32, events: seq<Event>, x: Summary)
    requires Follows(log, rounds, TraceOf(readings, OneWayReader(d)), d)
    requires multiset(events) == multiset(Stored(log)) && Summarizes(x, Filter(events, OfProcess(pid)))
    ensures Agrees(TraceOf(readings, OneWayReader(d)), pid, d, x, Reported(TraceOf(readings, BandwidthReader), pid, d))
  {
    hide Feed, Visits, TraceBytes, Lossless, OneRemotePerSession, Reported, Stored, Filter, Summarizes, TraceOf, Wrap,
      SameSnapshots;
    var trace, other := TraceOf(readings, OneWayReader(d)), TraceOf(readings, BandwidthReader);
    if TraceBytes(trace, pid, d) < TWO_TO_THE_64 {
      SameMembers(events, Stored(log));
      TracesOfSame(readings, OneWayReader(d), BandwidthReader);
      SummaryBound(rounds, trace, other, d, pid, events, x);
      BytesIgnoreClocks(trace, other, pid, d);
      TransferTheorems.TraceRefinement(other, pid, d);
      WrapSmall(TraceBytes(trace, pid, d));
    }
  }

  method UpdateOneWay(tracker: O.OneWayTracker, r: Reading)
    returns (stats: seq<O.OneWayStats>, ghost order: seq<string>)
    requires tracker.Valid()
    modifies tracker
    ensures tracker.Valid()
    ensures tracker.trace == Then(old(tracker.trace), r.snapshots, NowOf(r, OneWayReader(tracker.direction)))
    ensures Enumerates(order, O.ActiveOneWay(tracker.trace, tracker.direction).Keys)
    ensures stats == Results(O.ActiveOneWay(tracker.trace, tracker.direction), order)
  {
    hide FirstRows, O.ActiveOneWay, O.ClosedOneWay;
    var clock := NowOf(r, OneWayReader(tracker.direction));
    stats, order := tracker.Update(r.snapshots, clock);
  }

  /** The components on the same readings: the three trackers with a clock each, the collector that takes
  process events, connection events, uploads and downloads in every round, and the summary of a process.
  Its totals agree with the reported ones in both directions. */
  method Monitor(readings: seq<Reading>, pid: uint32)
    returns (summary: Summary, uploaded: uint64, downloaded: uint64)
    ensures Agrees(TraceOf(readings, OneWayReader(Upload)), pid, Upload, summary, uploaded)
    ensures Agrees(TraceOf(readings, OneWayReader(Download)), pid, Download, summary, downloaded)
  {
    hide FirstRows, Transfers, Creations, Changes, Follows, Agrees, Reported, Stored, Filter, Summarizes,
      O.ActiveOneWay, TraceOf, Enumerates, Results, B.TransferRateTracker.Valid, C.TimelineEventCollector.Valid,
      O.OneWayTracker.Valid;
    var bandwidth := new B.TransferRateTracker();
    var uploads := new O.OneWayTracker(Upload);
    var downloads := new O.OneWayTracker(Download);
    var collector := new C.TimelineEventCollector();
    ghost var up: seq<Round>, down: seq<Round> := [], [];
    NothingFollows();
    for i := 0 to |readings|
      invariant bandwidth.Valid() && uploads.Valid() && downloads.Valid() && collector.Valid()
      invariant uploads.direction == Upload && downloads.direction == Download
      invariant bandwidth.trace == TraceOf(readings[..i], BandwidthReader)
      invariant uploads.trace == TraceOf(readings[..i], OneWayReader(Upload))
      invariant downloads.trace == TraceOf(readings[..i], OneWayReader(Download))
      invariant Follows(collector.log, up, uploads.trace, Upload)
      invariant Follows(collector.log, down, downloads.trace, Download)
      invariant fresh(bandwidth) && fresh(uploads) && fresh(downloads) && fresh(collector)
    {
      TraceStep(readings, i, BandwidthReader);
      TraceStep(readings, i, OneWayReader(Upload));
      TraceStep(readings, i, OneWayReader(Download));
      var r := readings[i];
      ghost var upTrace, downTrace, log := uploads.trace, downloads.trace, collector.log;
      var _, _ := bandwidth.Update(r.snapshots, r.bandwidthNow);
      var uploadStats, upOrder := UpdateOneWay(uploads, r);
      var downloadStats, downOrder := UpdateOneWay(downloads, r);
      up, down := CollectStep(log, r, up, upTrace, upOrder, down, downTrace, downOrder);
      var _ := collector.Collect(r.processEvents, r.connectionEvents, uploadStats, downloadStats, r.lookup);
    }
    assert readings[..|readings|] == readings;
    var all := collector.GetAllEvents();
    var builder := new S.TimelineSummaryBuilder(all);
    summary := builder.ForProcessId(pid);
    uploaded := ReportedBytes(bandwidth, pid, Upload);
    downloaded := ReportedBytes(bandwidth, pid, Download);
    SummaryAgrees(collector.log, up, readings, Upload, pid, all, summary);
    SummaryAgrees(collector.log, down, readings, Download, pid, all, summary);
  }

  lemma {:induction false} NothingFollows()
    ensures forall reader :: TraceOf([], reader) == Start
    ensures forall d :: Follows([], [], Start, d)
  {
  }
}
