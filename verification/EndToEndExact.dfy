/** Exactly when the end-to-end relations hold.  Over all byte counters of a schedule of connections, the
collected peaks of a process stay within what it transferred iff no session is shown under two remotes,
and they equal it iff every session has a remote of its own and is at it when it ends.  And the input
on which the bound fails, with two connections that share their key. */
module EndToEndExact {
  import opened Model
  import opened FiniteSums
  import opened IdentityKey
  import Endpoint
  import opened TransferAccounting
  import opened Samples
  import opened Schedules
  import opened CollectedSessions
  import opened EndToEnd
  import Timeline
  import opened TimelineSummaryBuilder
  import O = OneWayTracker
  import T = TransferTheorems

  // ----- Schedules

  lemma {:induction false} VisitsSchedule(rounds: seq<Round>, a: Trace, b: Trace, d: Direction)
    requires SameSchedule(a, b) && Visits(rounds, a, d)
    ensures Visits(rounds, b, d)
    decreases a
  {
    hide FirstRows, O.ActiveOneWay, Enumerates;
    if a != Start {
      UnfoldVisits(rounds, a, d);
      VisitsSchedule(Earlier(rounds), a.before, b.before, d);
      O.UnfoldUpdate(a, d);
      O.UnfoldUpdate(b, d);
      LastRowsSchedule(a, b);
    }
  }

  lemma {:induction false} ShownSchedule(a: Trace, b: Trace, k: string)
    requires SameSchedule(a, b)
    ensures ShownRemotes(a, k) == ShownRemotes(b, k) && RemoteOfKey(a, k) == RemoteOfKey(b, k)
    decreases a
  {
    hide FirstRows, Endpoint.FormatEndpoint;
    LastRowsSchedule(a, b);
    if a != Start {
      ShownSchedule(a.before, b.before, k);
    }
  }

  lemma {:induction false} OneRemoteSchedule(a: Trace, b: Trace, pid: uint32)
    requires SameSchedule(a, b) && OneRemotePerSession(a, pid)
    ensures OneRemotePerSession(b, pid)
    decreases a
  {
    hide FirstRows, ShownRemotes, RemoteOf;
    if a != Start {
      OneRemoteSchedule(a.before, b.before, pid);
      LastRowsSchedule(a, b);
      forall k: string ensures ShownRemotes(a, k) == ShownRemotes(b, k) {
        ShownSchedule(a, b, k);
      }
    }
  }

  lemma {:induction false} ShownPart(v: Trace, k: string, t: Trace, u: Trace, pid: uint32) returns (x: Trace)
    requires SameSchedule(t, u) && Within(v, t) && Continues(v, pid, k)
    ensures Within(x, u) && Length(x) == Length(v) && Continues(x, pid, k)
    ensures RemoteOfKey(x, k) == RemoteOfKey(v, k) && Opening(x, k) == Opening(v, k)
  {
    hide Opening, RemoteOfKey, Continues, SameSchedule;
    x := PartSchedule(v, t, u);
    SampleSchedule(v, x, pid, k);
  }

  lemma {:induction false} LosslessSchedule(t: Trace, u: Trace, pid: uint32)
    requires SameSchedule(t, u) && Lossless(t, pid)
    ensures Lossless(u, pid)
  {
    hide Opening, RemoteOfKey, Continues, SameSchedule, Within;
    ScheduleSymmetric(t, u);
    forall v, j, w, k | Shown(v, u, pid, j) && Shown(w, u, pid, k)
      ensures RemoteOfKey(v, j) == RemoteOfKey(w, k) <==> SameSession(v, j, w, k)
    {
      var x := ShownPart(v, j, u, t, pid);
      var y := ShownPart(w, k, u, t, pid);
      assert Shown(x, t, pid, j) && Shown(y, t, pid, k);
    }
    forall v, k | Within(v, u) && Continues(v, pid, k) && Ends(v, u, k) ensures RemoteOfKey(v, k) != "" {
      var x := ShownPart(v, k, u, t, pid);
      EndsPart(v, x, t, u, k);
      assert Ends(x, t, k);
    }
  }

  // ----- Peaks of the recounted run

  /** The peak of a remote is at least what any of its samples showed. */
  lemma {:induction false} PeakOfSample(rounds: seq<Round>, u: Trace, d: Direction, pid: uint32, v: Trace, k: string)
    requires Visits(rounds, u, d) && TraceBytes(u, pid, d) < TWO_TO_THE_64 && Within(v, u) && Owns(v, pid, k)
    ensures Peak(Collected(rounds, u, d, pid), RemoteOfKey(v, k), d) >= SessionBytes(v, k, d)
    decreases u
  {
    hide FirstRows, Collected, Peak, Visits, TraceBytes, SessionBytes, RemoteOf, Total;
    if v == u {
      RemoteOfOwned(v, pid, k);
      if SessionBytes(v, k, d) != 0 {
        var e := Covered(rounds, u, d, pid, k);
      }
    } else {
      UnfoldVisits(rounds, u, d);
      UnfoldTraceBytes(u, pid, d);
      PeakOfSample(Earlier(rounds), u.before, d, pid, v, k);
      CollectedGrows(rounds, u, d, pid);
      PeakGrows(Collected(Earlier(rounds), u.before, d, pid), Collected(rounds, u, d, pid), RemoteOfKey(v, k), d);
    }
  }

  /** Where a collected event with bytes comes from in the recounted run: a session that passed a mark. */
  lemma {:induction false} MarkedSource(rounds: seq<Round>, t: Trace, a: Mark, b: Mark, d: Direction, pid: uint32,
      e: Timeline.Event)
    returns (v: Trace, k: string)
    requires var u := Recounted(t, a, b);
      Visits(rounds, u, d) && TraceBytes(u, pid, d) < TWO_TO_THE_64 && e in Collected(rounds, u, d, pid)
    requires e.Bytes(d) != 0
    ensures Within(v, t) && Continues(v, pid, k) && RemoteOfKey(v, k) == e.remoteAddress
    ensures var x := if a.key == k && Opening(v, k) < a.at <= Length(v) then 1 else 0;
      var y := if b.key == k && Opening(v, k) < b.at <= Length(v) then 1 else 0;
      e.Bytes(d) == x + y
  {
    hide Collected, Visits, TraceBytes, Recounted, Opening, SessionBytes, FirstRows, RemoteOf;
    var u := Recounted(t, a, b);
    var x;
    x, k := EventSource(rounds, u, d, pid, e);
    v := RecountedPart(x, t, u, a, b);
    RecountedSchedule(v, a, b);
    SampleSchedule(v, x, pid, k);
    PassedInSession(v, x, a, b, k, d);
  }

  lemma {:induction false} TwoPeaks(s: seq<Timeline.Event>, r: string, q: string, d: Direction)
    requires r != q && r != "" && q != "" && Peak(s, r, d) > 0 && Peak(s, q, d) > 0
    ensures Total(Peaks(s, d)) >= Peak(s, r, d) + Peak(s, q, d)
  {
    hide Peak, Remotes, Total;
    if r !in Remotes(s) {
      UnreachedPeak(s, r, d);
    }
    if q !in Remotes(s) {
      UnreachedPeak(s, q, d);
    }
    TotalRemove(Peaks(s, d), r);
    TotalRemove(Peaks(s, d) - {r}, q);
  }

  lemma {:induction false} OnePeak(s: seq<Timeline.Event>, r: string, d: Direction)
    requires forall e | e in s && e.Bytes(d) > 0 && e.remoteAddress != "" :: e.remoteAddress == r && e.Bytes(d) == 1
    ensures Total(Peaks(s, d)) <= 1
    ensures (forall e | e in s && e.Bytes(d) > 0 :: e.remoteAddress == "") ==> Total(Peaks(s, d)) == 0
  {
    hide Peak, Remotes, Total;
    RemoteMembers(s);
    NamedRemotes(s);
    var peaks := Peaks(s, d);
    forall q | q in peaks ensures peaks[q] <= if q == r then 1 else 0 {
      if peaks[q] > 0 {
        var e :| e in s && e.remoteAddress == q && e.Bytes(d) == peaks[q];
      }
    }
    if r in peaks {
      TotalRemove(peaks, r);
      TotalZero(peaks - {r});
    } else {
      TotalZero(peaks);
    }
  }

  // ----- The bound

  /** Whatever the byte counters, the peaks stay within the traffic. */
  ghost predicate BoundedForAllCounters(rounds: seq<Round>, t: Trace, d: Direction, pid: uint32) {
    forall u | SameSchedule(t, u) && Visits(rounds, u, d) && TraceBytes(u, pid, d) < TWO_TO_THE_64 ::
      Total(Peaks(Collected(rounds, u, d, pid), d)) <= TraceBytes(u, pid, d)
  }

  /** A session that was shown under two remotes was so at two samples. */
  lemma {:induction false} TwoRemotesAt(t: Trace, pid: uint32) returns (v: Trace, w: Trace, k: string)
    requires !OneRemotePerSession(t, pid)
    ensures Shown(v, t, pid, k) && Shown(w, t, pid, k) && SameSession(v, k, w, k)
    ensures RemoteOfKey(v, k) != RemoteOfKey(w, k) && Length(v) < Length(w)
    decreases t
  {
    hide FirstRows, RemoteOf, Opening, ShownRemotes;
    if !OneRemotePerSession(t.before, pid) {
      v, w, k := TwoRemotesAt(t.before, pid);
    } else {
      var r, q;
      k, r, q :| Owns(t, pid, k) && r in ShownRemotes(t, k) && q in ShownRemotes(t, k) && r != q;
      v := ShownAt(t, pid, k, r);
      w := ShownAt(t, pid, k, q);
      if Length(v) == Length(w) {
        WithinUnique(v, w, t);
      } else if Length(w) < Length(v) {
        v, w := w, v;
      }
    }
  }

  lemma {:induction false} TwoRemotesExceed(rounds: seq<Round>, t: Trace, d: Direction, pid: uint32, v: Trace, w: Trace,
      k: string)
    requires Visits(rounds, t, d) && Shown(v, t, pid, k) && Shown(w, t, pid, k) && SameSession(v, k, w, k)
    requires RemoteOfKey(v, k) != RemoteOfKey(w, k) && Length(v) < Length(w)
    ensures !BoundedForAllCounters(rounds, t, d, pid)
  {
    hide Visits, TraceBytes, Total, Collected, Peaks, Peak, SameSchedule, Recounted, Opening, SessionBytes, RemoteOfKey,
      Continues, Within;
    var a, b := Mark(k, Length(v)), Mark(k, Length(w));
    var u := Recounted(t, a, b);
    RecountedSchedule(t, a, b);
    VisitsSchedule(rounds, t, u, d);
    OpeningBound(v, pid, k);
    OpeningBound(w, pid, k);
    RecountedTraffic(t, u, a, b, pid, d);
    RecountedSample(rounds, t, a, b, d, pid, v, k);
    RecountedSample(rounds, t, a, b, d, pid, w, k);
    TwoPeaks(Collected(rounds, u, d, pid), RemoteOfKey(v, k), RemoteOfKey(w, k), d);
  }

  /** What a sample of the recounted run adds to the peak of its remote. */
  lemma {:induction false} RecountedSample(rounds: seq<Round>, t: Trace, a: Mark, b: Mark, d: Direction, pid: uint32,
      v: Trace, k: string)
    requires var u := Recounted(t, a, b); Visits(rounds, u, d) && TraceBytes(u, pid, d) < TWO_TO_THE_64
    requires Within(v, t) && Continues(v, pid, k)
    ensures var x := if a.key == k && Opening(v, k) < a.at <= Length(v) then 1 else 0;
      var y := if b.key == k && Opening(v, k) < b.at <= Length(v) then 1 else 0;
      Peak(Collected(rounds, Recounted(t, a, b), d, pid), RemoteOfKey(v, k), d) >= x + y
  {
    hide Visits, TraceBytes, Collected, Peak, SameSchedule, Recounted, Opening, SessionBytes, RemoteOfKey, FirstRows,
      Within;
    RecountedWithin(v, t, a, b);
    RecountedSchedule(v, a, b);
    SampleSchedule(v, Recounted(v, a, b), pid, k);
    PassedInSession(v, Recounted(v, a, b), a, b, k, d);
    PeakOfSample(rounds, Recounted(t, a, b), d, pid, Recounted(v, a, b), k);
  }

  /** For every schedule of connections: the end-to-end bound holds for all byte counters exactly when
  no session of the process is shown under two remotes. */
  lemma {:induction false} BoundIsExact(rounds: seq<Round>, t: Trace, d: Direction, pid: uint32)
    requires Visits(rounds, t, d)
    ensures BoundedForAllCounters(rounds, t, d, pid) <==> OneRemotePerSession(t, pid)
  {
    hide OneRemotePerSession, Visits, TraceBytes, Total, Collected, Peaks, Peak, SameSchedule, UnshownOf, RemoteOfKey,
      Opening;
    if OneRemotePerSession(t, pid) {
      forall u | SameSchedule(t, u) && Visits(rounds, u, d) && TraceBytes(u, pid, d) < TWO_TO_THE_64
        ensures Total(Peaks(Collected(rounds, u, d, pid), d)) <= TraceBytes(u, pid, d)
      {
        OneRemoteSchedule(t, u, pid);
        PeaksBounded(rounds, u, d, pid);
      }
    } else {
      var v, w, k := TwoRemotesAt(t, pid);
      TwoRemotesExceed(rounds, t, d, pid, v, w, k);
    }
  }

  // ----- The equality

  /** Whatever the byte counters, the peaks are the traffic. */
  ghost predicate ExactForAllCounters(rounds: seq<Round>, t: Trace, d: Direction, pid: uint32) {
    forall u | SameSchedule(t, u) && Visits(rounds, u, d) && TraceBytes(u, pid, d) < TWO_TO_THE_64 ::
      Total(Peaks(Collected(rounds, u, d, pid), d)) == TraceBytes(u, pid, d)
  }

  /** Two sessions with one remote: a byte in each, and the peak is one. */
  lemma {:induction false} SharedRemoteLoses(rounds: seq<Round>, t: Trace, d: Direction, pid: uint32, v: Trace,
      j: string, w: Trace, k: string)
    requires Visits(rounds, t, d) && OneRemotePerSession(t, pid)
    requires Shown(v, t, pid, j) && Shown(w, t, pid, k) && RemoteOfKey(v, j) == RemoteOfKey(w, k)
    requires !SameSession(v, j, w, k)
    ensures !ExactForAllCounters(rounds, t, d, pid)
  {
    hide Visits, TraceBytes, Total, Collected, Peaks, Peak, SameSchedule, Recounted, Opening, SessionBytes, RemoteOfKey,
      Continues, Within, OneRemotePerSession;
    var a, b, r := Mark(j, Length(v)), Mark(k, Length(w)), RemoteOfKey(v, j);
    var u := Recounted(t, a, b);
    RecountedSchedule(t, a, b);
    VisitsSchedule(rounds, t, u, d);
    OpeningBound(v, pid, j);
    OpeningBound(w, pid, k);
    WithinLength(v, t);
    WithinLength(w, t);
    OnlySample(v, t, pid, j);
    OnlySample(w, t, pid, k);
    RecountedTraffic(t, u, a, b, pid, d);
    var s := Collected(rounds, u, d, pid);
    forall e | e in s && e.Bytes(d) > 0 && e.remoteAddress != "" ensures e.remoteAddress == r && e.Bytes(d) == 1 {
      var y, i := MarkedSource(rounds, t, a, b, d, pid, e);
      if i == j && Opening(y, i) < Length(v) <= Length(y) {
        MarkInSession(v, y, t, pid, i);
        SessionKeepsRemote(v, y, t, pid, i);
      }
      if i == k && Opening(y, i) < Length(w) <= Length(y) {
        MarkInSession(w, y, t, pid, i);
        SessionKeepsRemote(w, y, t, pid, i);
      }
    }
    OnePeak(s, r, d);
  }

  /** Shown samples of one session have one remote. */
  lemma {:induction false} SessionKeepsRemote(v: Trace, w: Trace, t: Trace, pid: uint32, k: string)
    requires OneRemotePerSession(t, pid) && Shown(v, t, pid, k) && Shown(w, t, pid, k) && SameSession(v, k, w, k)
    requires Within(v, w)
    ensures RemoteOfKey(v, k) == RemoteOfKey(w, k)
  {
    hide FirstRows, RemoteOf, Opening, ShownRemotes;
    OneRemoteWithin(w, t, pid);
    ShownLater(v, w, pid, k);
    ShownLater(w, w, pid, k);
    assert Owns(w, pid, k);
  }

  lemma {:induction false} OneRemoteWithin(v: Trace, t: Trace, pid: uint32)
    requires Within(v, t) && OneRemotePerSession(t, pid)
    ensures OneRemotePerSession(v, pid)
  {
    hide FirstRows, ShownRemotes;
    if v != t {
      OneRemoteWithin(v, t.before, pid);
    }
  }

  lemma {:induction false} ShownLater(v: Trace, w: Trace, pid: uint32, k: string)
    requires Within(v, w) && Continues(v, pid, k) && RemoteOfKey(v, k) != "" && SameSession(v, k, w, k) &&
      Continues(w, pid, k)
    ensures RemoteOfKey(v, k) in ShownRemotes(w, k)
    decreases w
  {
    hide FirstRows, RemoteOf;
    if v != w {
      OwnedBefore(w, pid, k);
      OpeningBound(v, pid, k);
      WithinLength(v, w.before);
      OpeningBound(w.before, pid, k);
      OpeningContinues(w, pid, k);
      SessionSpans(v, w.before, pid, k);
      ContinuesBetween(v, w.before, pid, k);
      ShownLater(v, w.before, pid, k);
    }
  }

  /** A session that ends without a remote: a byte in its last sample is in no peak. */
  lemma {:induction false} HiddenEndLoses(rounds: seq<Round>, t: Trace, d: Direction, pid: uint32, v: Trace, k: string)
    requires Visits(rounds, t, d) && Within(v, t) && Continues(v, pid, k) && Ends(v, t, k) && RemoteOfKey(v, k) == ""
    ensures !ExactForAllCounters(rounds, t, d, pid)
  {
    hide Visits, TraceBytes, Total, Collected, Peaks, Peak, SameSchedule, Recounted, Opening, SessionBytes, RemoteOfKey,
      Continues, Within, Ends;
    var a, b := Mark(k, Length(v)), Mark(k, Length(t) + 1);
    var u := Recounted(t, a, b);
    RecountedSchedule(t, a, b);
    VisitsSchedule(rounds, t, u, d);
    OpeningBound(v, pid, k);
    WithinLength(v, t);
    OnlySample(v, t, pid, k);
    assert MarksSample(b, t, pid) by {
      forall x | Within(x, t) ensures Length(x) != Length(t) + 1 {
        WithinLength(x, t);
      }
    }
    RecountedTraffic(t, u, a, b, pid, d);
    var s := Collected(rounds, u, d, pid);
    forall e | e in s && e.Bytes(d) > 0 ensures e.remoteAddress == "" {
      var y, i := MarkedSource(rounds, t, a, b, d, pid, e);
      WithinLength(y, t);
      MarkInSession(v, y, t, pid, i);
      EndIsLast(v, y, t, pid, i);
    }
    OnePeak(s, "", d);
  }

  lemma {:induction false} EndIsLast(v: Trace, y: Trace, t: Trace, pid: uint32, k: string)
    requires Within(y, t) && Within(v, y) && Continues(y, pid, k) && SameSession(v, k, y, k) && Ends(v, t, k)
    ensures v == y
    decreases y
  {
    hide FirstRows;
    if v != y {
      WithinBefore(y, t);
      if y.before != v {
        OwnedBefore(y, pid, k);
        OpeningContinues(y, pid, k);
        OpeningBound(v, pid, k);
        assert Within(v, y.before);
        LongerContinues(v, y, pid, k);
        EndIsLast(v, y.before, t, pid, k);
      }
    }
  }

  /** For every schedule of connections: summarising everything that was collected loses nothing and
  counts nothing twice, for all byte counters, exactly when every session of the process has a remote
  of its own and is at it when it ends. */
  lemma {:induction false} EqualityIsExact(rounds: seq<Round>, t: Trace, d: Direction, pid: uint32)
    requires Visits(rounds, t, d)
    ensures ExactForAllCounters(rounds, t, d, pid) <==> Lossless(t, pid)
  {
    hide OneRemotePerSession, Visits, TraceBytes, Total, Collected, Peaks, Peak, SameSchedule, RemoteOfKey, Opening,
      Within, Continues, Ends;
    if Lossless(t, pid) {
      forall u | SameSchedule(t, u) && Visits(rounds, u, d) && TraceBytes(u, pid, d) < TWO_TO_THE_64
        ensures Total(Peaks(Collected(rounds, u, d, pid), d)) == TraceBytes(u, pid, d)
      {
        LosslessSchedule(t, u, pid);
        PeaksComplete(rounds, u, d, pid);
      }
    } else if ExactForAllCounters(rounds, t, d, pid) {
      BoundIsExact(rounds, t, d, pid);
      if !OwnRemotes(t, pid) {
        var v, j, w, k :| Shown(v, t, pid, j) && Shown(w, t, pid, k) &&
          (RemoteOfKey(v, j) == RemoteOfKey(w, k)) != SameSession(v, j, w, k);
        if SameSession(v, j, w, k) {
          OrderedKeepsRemote(v, w, t, pid, k);
        } else {
          SharedRemoteLoses(rounds, t, d, pid, v, j, w, k);
        }
      } else {
        var v, k :| Within(v, t) && Continues(v, pid, k) && Ends(v, t, k) && RemoteOfKey(v, k) == "";
        HiddenEndLoses(rounds, t, d, pid, v, k);
      }
    }
  }

  lemma {:induction false} OrderedKeepsRemote(v: Trace, w: Trace, t: Trace, pid: uint32, k: string)
    requires OneRemotePerSession(t, pid) && Shown(v, t, pid, k) && Shown(w, t, pid, k) && SameSession(v, k, w, k)
    ensures RemoteOfKey(v, k) == RemoteOfKey(w, k)
  {
    hide OneRemotePerSession, RemoteOfKey, Opening, Continues, Within;
    if Length(v) <= Length(w) {
      WithinOrdered(v, w, t);
      SessionKeepsRemote(v, w, t, pid, k);
    } else {
      WithinOrdered(w, v, t);
      SessionKeepsRemote(w, v, t, pid, k);
    }
  }

  // ----- An input on which the bound fails

  /** Three snapshots of one row each. */
  function ThreeSamples(a: Connection, b: Connection): Trace {
    Then(Then(Then(Start, [Sample(a, 0)], 1.0), [Sample(a, 100)], 2.0), [Sample(b, 150)], 3.0)
  }

  lemma {:induction false} SampleBytes(a: Connection, b: Connection)
    requires Key(a) == Key(b) && a.processId == b.processId == 1
    ensures var trace, k := ThreeSamples(a, b), Key(a);
      && LastRows(trace.before.before).Keys == {k} && LastRows(trace.before).Keys == {k} && LastRows(trace).Keys == {k}
      && LastRows(trace.before)[k].connection == a && LastRows(trace)[k].connection == b
      && SessionBytes(trace.before, k, Upload) == 100 == TraceBytes(trace.before, 1, Upload)
      && SessionBytes(trace, k, Upload) == 150 == TraceBytes(trace, 1, Upload)
  {
    hide Key, Total;
    var trace, k := ThreeSamples(a, b), Key(a);
    OneRow(Sample(a, 0));
    OneRow(Sample(a, 100));
    OneRow(Sample(b, 150));
    var one, two, three := trace.before.before, trace.before, trace;
    UnfoldTraceBytes(one, 1, Upload);
    UnfoldTraceBytes(two, 1, Upload);
    UnfoldTraceBytes(three, 1, Upload);
    TotalZero(StepDeltas(PriorRows(one), LastRows(one), 1, Upload));
    OneTotal(StepDeltas(PriorRows(two), LastRows(two), 1, Upload), k);
    OneTotal(StepDeltas(PriorRows(three), LastRows(three), 1, Upload), k);
  }

  /** The collected events of the three samples: those with bytes, and where they went. */
  lemma {:induction false} SampleEvents(rounds: seq<Round>, a: Connection, b: Connection)
    requires Key(a) == Key(b) && a.processId == b.processId == 1 && Visits(rounds, ThreeSamples(a, b), Upload)
    ensures var s := Collected(rounds, ThreeSamples(a, b), Upload, 1);
      var r, q := RemoteOf(Sample(a, 100)), RemoteOf(Sample(b, 150));
      && (forall e | e in s && e.uploadedBytes != 0 ::
        || (e.remoteAddress == r && e.uploadedBytes == 100)
        || (e.remoteAddress == q && e.uploadedBytes == 150))
      && (exists e :: e in s && e.remoteAddress == r && e.uploadedBytes == 100)
      && exists e :: e in s && e.remoteAddress == q && e.uploadedBytes == 150
  {
    hide Key, Collected, FirstRows, TraceBytes, SessionBytes, Endpoint.FormatEndpoint, Visits;
    var trace, k := ThreeSamples(a, b), Key(a);
    var one, two := trace.before.before, trace.before;
    SampleBytes(a, b);
    UnfoldVisits(rounds, trace, Upload);
    UnfoldVisits(Earlier(rounds), two, Upload);
    UnfoldVisits(Earlier(Earlier(rounds)), one, Upload);
    var early, late := Collected(Earlier(rounds), two, Upload, 1), Collected(rounds, trace, Upload, 1);
    UnfoldTraceBytes(two, 1, Upload);
    forall e | e in early && e.uploadedBytes != 0
      ensures e.remoteAddress == RemoteOf(Sample(a, 100)) && e.uploadedBytes == 100
    {
      if e in Collected(Earlier(Earlier(rounds)), one, Upload, 1) {
        NothingCollected(Earlier(Earlier(Earlier(rounds))), one.before, Upload, 1);
        var j := NewEventSource(Earlier(Earlier(rounds)), one, Upload, 1, e);
        assert false;
      } else {
        var j := NewEventSource(Earlier(rounds), two, Upload, 1, e);
      }
    }
    forall e | e in late && e.uploadedBytes != 0 && e !in early
      ensures e.remoteAddress == RemoteOf(Sample(b, 150)) && e.uploadedBytes == 150
    {
      var j := NewEventSource(rounds, trace, Upload, 1, e);
    }
    var first := Covered(Earlier(rounds), two, Upload, 1, k);
    var second := Covered(rounds, trace, Upload, 1, k);
    CollectedGrows(rounds, trace, Upload, 1);
  }

  /** Two connections of one process that share their key, one ending and the other starting between
  two snapshots: the trackers take them for one session of 150 bytes, the summary adds the 100 it
  had under the first remote to the 150 under the second. */
  lemma {:induction false} SharedKeyOvercounts(rounds: seq<Round>, a: Connection, b: Connection,
      events: seq<Timeline.Event>, x: Summary)
    requires a == Connection(1, "x", 2, "y|3|z", 4, TCP, ESTABLISHED, EPOCH)
    requires b == Connection(1, "x|2|y", 3, "z", 4, TCP, ESTABLISHED, EPOCH)
    requires Visits(rounds, ThreeSamples(a, b), Upload)
    requires multiset(events) == multiset(Collected(rounds, ThreeSamples(a, b), Upload, 1)) && Summarizes(x, events)
    ensures Reported(ThreeSamples(a, b), 1, Upload) == 150 && x.totalUploadedBytes == 250
  {
    hide Key, Collected, TraceBytes, Total, Wrap, Peak, Remotes, Reported, Summarizes, Endpoint.FormatEndpoint, Visits;
    var trace, s := ThreeSamples(a, b), Collected(rounds, ThreeSamples(a, b), Upload, 1);
    var r, q := RemoteOf(Sample(a, 100)), RemoteOf(Sample(b, 150));
    KeyCollision(a, b);
    SampleBytes(a, b);
    SampleEvents(rounds, a, b);
    TwoRemotes(r, q);
    RemoteMembers(s);
    assert Peak(s, r, Upload) == 100 && Peak(s, q, Upload) == 150;
    OnlyPeaks(s, r, q, Upload);
    SamePeaks(events, s, Upload);
    SummaryTotal(x, events, Upload);
    T.TraceRefinement(trace, 1, Upload);
    WrapSmall(250);
    WrapSmall(150);
  }

  /** Two remotes that all bytes went to. */
  lemma {:induction false} OnlyPeaks(s: seq<Timeline.Event>, r: string, q: string, d: Direction)
    requires r != q && r in Remotes(s) && q in Remotes(s)
    requires forall e | e in s && e.Bytes(d) != 0 :: e.remoteAddress in {r, q}
    ensures Total(Peaks(s, d)) == Peak(s, r, d) + Peak(s, q, d)
  {
    hide Peak, Remotes, Total;
    var peaks := Peaks(s, d);
    var two, others := Restrict(peaks, {r, q}), Restrict(peaks, peaks.Keys - {r, q});
    forall x | x in others ensures others[x] == 0 {
      assert forall e | e in s && e.remoteAddress == x :: e.Bytes(d) == 0;
    }
    TotalZero(others);
    TotalSplit(peaks, two, others);
    TwoTotal(two, r, q);
  }

  lemma {:induction false} TwoRemotes(r: string, q: string)
    requires r == Endpoint.FormatEndpoint("y|3|z", 4) && q == Endpoint.FormatEndpoint("z", 4)
    ensures r != q && r != "" && q != ""
  {
  }
}
