/** UploadTracker and DownloadTracker.  The two source classes are the same text up to the counter
they read, so one class with a constant direction models both.  `ProductRefinement` shows that
TransferRateTracker's connection maps project onto theirs in every reachable state. */
module OneWayTracker {
  import opened Model
  import FiniteSums
  import IdentityKey
  import opened TransferAccounting
  import TransferTheorems
  import Samples
  import opened TransferRecords

  datatype TrackedOneWay = TrackedOneWay(
    connection: Connection,
    processName: string,
    baseline: uint64,
    cumulative: uint64,
    firstObserved: Time,
    lastUpdated: Time)

  datatype OneWayStats = OneWayStats(
    processId: uint32,
    processName: string,
    remoteAddress: string,
    remotePort: uint16,
    protocol: Protocol,
    bytes: uint64,
    firstObserved: Time,
    lastUpdated: Time,
    isActive: bool)

  function ToStats(t: TrackedOneWay, isActive: bool): OneWayStats {
    OneWayStats(t.connection.processId, t.processName, t.connection.remoteAddress, t.connection.remotePort,
      t.connection.protocol, t.cumulative, t.firstObserved, t.lastUpdated, isActive)
  }

  function TrackOneWay(active: map<string, TrackedOneWay>, seeded: bool, k: string, row: TransferSnapshot, now: Time,
      d: Direction): TrackedOneWay {
    var last := row.Stamp(now);
    if k in active then
      var was := active[k];
      TrackedOneWay(
        row.connection, if row.processName == "" then was.processName else row.processName, row.Bytes(d),
        if seeded then Wrap(was.cumulative + Delta(was.baseline, row.Bytes(d))) else was.cumulative,
        was.firstObserved, last)
    else
      TrackedOneWay(row.connection, row.processName, row.Bytes(d), 0, last, last)
  }

  ghost function NextOneWay(active: map<string, TrackedOneWay>, seeded: bool, rows: map<string, TransferSnapshot>,
      now: Time, d: Direction): map<string, TrackedOneWay> {
    map k | k in rows :: TrackOneWay(active, seeded, k, rows[k], now, d)
  }

  /** activeUploads_ or activeDownloads_ after a trace. */
  ghost function ActiveOneWay(trace: Trace, d: Direction): map<string, TrackedOneWay> {
    if trace == Start then map[] else
      NextOneWay(ActiveOneWay(trace.before, d), trace.before != Start, LastRows(trace), trace.now, d)
  }

  /** The records of the sessions that ended, `keys` being still to visit. */
  ghost function Ended(active: map<string, TrackedOneWay>, rows: set<string>,
      keys: set<string>): map<string, OneWayStats> {
    map k | k in active && k !in keys && k !in rows :: ToStats(active[k], false)
  }

  /** closedUploadStats_ or closedDownloadStats_ after a trace. */
  ghost function ClosedOneWay(trace: Trace, d: Direction): map<string, OneWayStats> {
    if trace == Start || trace.before == Start then map[] else
      ClosedOneWay(trace.before, d) + Ended(ActiveOneWay(trace.before, d), LastRows(trace).Keys, {})
  }

  // ----- Product refinement

  function Project(t: TrackedTransfer, d: Direction): TrackedOneWay {
    TrackedOneWay(t.connection, t.processName, t.Baseline(d), t.Cumulative(d), t.firstObserved, t.lastUpdated)
  }

  function ProjectStats(s: ConnectionBandwidthStats, d: Direction): OneWayStats {
    OneWayStats(s.processId, s.processName, s.remoteAddress, s.remotePort, s.protocol,
      if d == Upload then s.uploadedBytes else s.downloadedBytes, s.firstObserved, s.lastUpdated, s.isActive)
  }

  /** Same keys, and every entry of `a` projects to the entry of `b`. */
  ghost predicate ProjectsTo(a: map<string, TrackedTransfer>, b: map<string, TrackedOneWay>, d: Direction) {
    a.Keys == b.Keys && forall k | k in a :: Project(a[k], d) == b[k]
  }

  ghost predicate StatsProjectTo(a: map<string, ConnectionBandwidthStats>, b: map<string, OneWayStats>, d: Direction) {
    a.Keys == b.Keys && forall k | k in a :: ProjectStats(a[k], d) == b[k]
  }

  lemma {:induction false} TrackProjects(a: map<string, TrackedTransfer>, b: map<string, TrackedOneWay>, seeded: bool,
      k: string, row: TransferSnapshot, now: Time, d: Direction)
    requires ProjectsTo(a, b, d)
    ensures Project(Track(a, seeded, k, row, now), d) == TrackOneWay(b, seeded, k, row, now, d)
  {
    hide Wrap, RateOver;
    if k in a {
      assert Project(a[k], d) == b[k];
      WrapSmall(a[k].Cumulative(d));
    }
  }

  lemma {:induction false} ActiveProjects(trace: Trace, d: Direction)
    ensures ProjectsTo(Active(trace), ActiveOneWay(trace, d), d)
  {
    hide FirstRows, Wrap, Track, TrackOneWay;
    if trace != Start {
      ActiveProjects(trace.before, d);
      forall k | k in LastRows(trace) ensures Project(Active(trace)[k], d) == ActiveOneWay(trace, d)[k] {
        TrackProjects(Active(trace.before), ActiveOneWay(trace.before, d), trace.before != Start, k, LastRows(trace)[k],
          trace.now, d);
      }
    }
  }

  lemma {:induction false} ClosedProjects(trace: Trace, d: Direction)
    ensures StatsProjectTo(ClosedConnections(trace), ClosedOneWay(trace, d), d)
  {
    hide FirstRows, Active, ActiveOneWay;
    if trace != Start {
      ClosedProjects(trace.before, d);
      ActiveProjects(trace.before, d);
      GoneProjects(trace, d);
    }
  }

  lemma {:induction false} GoneProjects(trace: Trace, d: Direction)
    requires trace != Start
    ensures if trace.before == Start then Gone(trace).Keys == {}
      else StatsProjectTo(Records(Gone(trace)), Ended(ActiveOneWay(trace.before, d), LastRows(trace).Keys, {}), d)
  {
    hide FirstRows, Active, ActiveOneWay;
    ActiveProjects(trace.before, d);
    var was, ended := Active(trace.before), Ended(ActiveOneWay(trace.before, d), LastRows(trace).Keys, {});
    if trace.before != Start {
      assert Records(Gone(trace)).Keys == ended.Keys;
      forall k | k in ended ensures ProjectStats(Records(Gone(trace))[k], d) == ended[k] {
        assert Project(was[k], d) == ActiveOneWay(trace.before, d)[k];
      }
    }
  }

  /** On the same snapshots and clock readings, the bandwidth tracker's active and closed connection
  maps are exactly the two one-way trackers' maps: keys, baselines, cumulative bytes, names, times. */
  lemma {:induction false} ProductRefinement(trace: Trace)
    ensures forall d: Direction ::
      ProjectsTo(Active(trace), ActiveOneWay(trace, d), d) &&
        StatsProjectTo(ClosedConnections(trace), ClosedOneWay(trace, d), d)
    ensures forall a, b: TrackedTransfer ::
      Project(a, Upload) == Project(b, Upload) && Project(a, Download) == Project(b, Download) &&
        a.uploadRate == b.uploadRate && a.downloadRate == b.downloadRate
      ==> a == b
  {
    forall d: Direction
      ensures ProjectsTo(Active(trace), ActiveOneWay(trace, d), d) &&
        StatsProjectTo(ClosedConnections(trace), ClosedOneWay(trace, d), d)
    {
      ActiveProjects(trace, d);
      ClosedProjects(trace, d);
    }
  }

  // ----- What the records say

  /** The record tells of one direction what the bandwidth tracker's record tells of both. */
  ghost predicate TellsOneWay(r: OneWayStats, trace: Trace, k: string, d: Direction) {
    && k in LastRows(trace)
    && var c := LastRows(trace)[k].connection;
      && r.processId == c.processId && r.processName == SessionName(trace, k)
      && r.remoteAddress == c.remoteAddress && r.remotePort == c.remotePort && r.protocol == c.protocol
      && r.bytes == Wrap(SessionBytes(trace, k, d))
      && r.firstObserved == SessionStart(trace, k)
      && (c.timestamp != EPOCH ==> r.lastUpdated == c.timestamp)
      && (c.timestamp == EPOCH ==> r.lastUpdated == trace.now)
  }

  lemma {:induction false} OneWayRecordTells(trace: Trace, k: string, d: Direction, isActive: bool)
    requires k in LastRows(trace)
    ensures k in ActiveOneWay(trace, d)
    ensures var r := ToStats(ActiveOneWay(trace, d)[k], isActive); TellsOneWay(r, trace, k, d) && r.isActive == isActive
  {
    hide FirstRows, Active, ActiveOneWay, Wrap, SessionBytes, SessionStart, SessionName;
    ActiveProjects(trace, d);
    ActiveMirrorsSnapshot(trace);
    TransferTheorems.ActiveSession(trace, k);
    ActiveName(trace, k);
    assert Project(Active(trace)[k], d) == ActiveOneWay(trace, d)[k];
  }

  lemma {:induction false} PublishedOneWay(trace: Trace, d: Direction)
    ensures ActiveOneWay(trace, d).Keys == LastRows(trace).Keys
    ensures forall k | k in ActiveOneWay(trace, d) ::
      var r := ToStats(ActiveOneWay(trace, d)[k], true); TellsOneWay(r, trace, k, d) && r.isActive
  {
    hide FirstRows, Active, ActiveOneWay, TellsOneWay, ToStats;
    ActiveProjects(trace, d);
    ActiveMirrorsSnapshot(trace);
    forall k | k in ActiveOneWay(trace, d)
      ensures TellsOneWay(ToStats(ActiveOneWay(trace, d)[k], true), trace, k, d)
      ensures ToStats(ActiveOneWay(trace, d)[k], true).isActive
    {
      OneWayRecordTells(trace, k, d, true);
    }
  }

  /** Closed records are the bandwidth tracker's, so `TransferRecords.ClosedTells` speaks of them too. */
  lemma {:induction false} ClosedOneWayTells(trace: Trace, k: string, d: Direction)
    ensures k in ClosedOneWay(trace, d) <==> exists v :: EndedAt(v, trace, k)
    ensures k in ClosedOneWay(trace, d) ==> !ClosedOneWay(trace, d)[k].isActive && exists v ::
      && EndedAt(v, trace, k) && TellsOneWay(ClosedOneWay(trace, d)[k], v.before, k, d)
      && forall w | EndedAt(w, trace, k) :: Samples.Length(w) <= Samples.Length(v)
  {
    hide FirstRows, ClosedConnections, ClosedOneWay, EndedAt, LastRows, SessionBytes, SessionStart, SessionName, Wrap;
    ClosedProjects(trace, d);
    ClosedTells(trace, k);
    if k in ClosedConnections(trace) {
      assert ProjectStats(ClosedConnections(trace)[k], d) == ClosedOneWay(trace, d)[k];
    }
  }

  lemma {:induction false} UnfoldUpdate(trace: Trace, d: Direction)
    requires trace != Start
    ensures ActiveOneWay(trace, d)
      == NextOneWay(ActiveOneWay(trace.before, d), trace.before != Start, FirstRows(trace.snapshots), trace.now, d)
    ensures ActiveOneWay(trace, d).Keys == LastRows(trace).Keys
  {
    hide FirstRows, TrackOneWay;
  }

  lemma {:induction false} UnfoldClosed(trace: Trace, d: Direction)
    requires trace != Start
    ensures ClosedOneWay(trace, d) == if trace.before == Start then ClosedOneWay(trace.before, d)
      else ClosedOneWay(trace.before, d) + Ended(ActiveOneWay(trace.before, d), LastRows(trace).Keys, {})
  {
    hide FirstRows, ActiveOneWay, Ended;
  }

  // ----- The class

  class OneWayTracker {
    const direction: Direction
    var active: map<string, TrackedOneWay>
    var activeStats: map<string, OneWayStats>
    var closedStats: map<string, OneWayStats>
    var seeded: bool
    ghost var trace: Trace

    ghost predicate Valid()
      reads this
    {
      && seeded == (trace != Start)
      && active == ActiveOneWay(trace, direction)
      && activeStats == (map k | k in active :: ToStats(active[k], true))
      && closedStats == ClosedOneWay(trace, direction)
    }

    constructor (direction: Direction)
      ensures Valid() && trace == Start && this.direction == direction
    {
      this.direction := direction;
      active, activeStats, closedStats, seeded, trace := map[], map[], map[], false, Start;
    }

    method Reset()
      modifies this
      ensures Valid() && trace == Start
    {
      active, activeStats, closedStats, seeded, trace := map[], map[], map[], false, Start;
    }

    method TrackRows(snapshots: seq<TransferSnapshot>, now: Time) returns (nextActive: map<string, TrackedOneWay>)
      ensures nextActive == NextOneWay(active, seeded, FirstRows(snapshots), now, direction)
    {
      hide IdentityKey.Key, TrackOneWay;
      nextActive := map[];
      var seen: set<string> := {};
      assert snapshots[..0] == [];
      for i := 0 to |snapshots|
        invariant seen == FirstRows(snapshots[..i]).Keys
        invariant nextActive == NextOneWay(active, seeded, FirstRows(snapshots[..i]), now, direction)
      {
        var row := snapshots[i];
        var key := IdentityKey.Key(row.connection);
        assert snapshots[..i + 1][..i] == snapshots[..i];
        if key !in seen {
          seen := seen + {key};
          nextActive := nextActive[key := TrackOneWay(active, seeded, key, row, now, direction)];
        }
      }
      assert snapshots[..|snapshots|] == snapshots;
    }

    method CloseMissing(nextActive: map<string, TrackedOneWay>)
      modifies `closedStats
      ensures closedStats == old(closedStats) + Ended(active, nextActive.Keys, {})
    {
      hide ToStats;
      var keys := active.Keys;
      while keys != {}
        invariant keys <= active.Keys
        invariant closedStats == old(closedStats) + Ended(active, nextActive.Keys, keys)
      {
        var key :| key in keys;
        keys := keys - {key};
        if key !in nextActive {
          closedStats := closedStats[key := ToStats(active[key], false)];
        }
      }
    }

    method Publish() returns (results: seq<OneWayStats>, ghost order: seq<string>)
      modifies `activeStats
      ensures activeStats == map k | k in active :: ToStats(active[k], true)
      ensures FiniteSums.Enumerates(order, active.Keys) && |results| == |order|
      ensures forall i | 0 <= i < |order| :: order[i] in active && results[i] == ToStats(active[order[i]], true)
    {
      hide ToStats;
      activeStats, results, order := map[], [], [];
      var keys := active.Keys;
      while keys != {}
        invariant keys <= active.Keys
        invariant activeStats == map k | k in active && k !in keys :: ToStats(active[k], true)
        invariant FiniteSums.Enumerates(order, active.Keys - keys) && |results| == |order|
        invariant forall i | 0 <= i < |order| :: order[i] in active && results[i] == ToStats(active[order[i]], true)
      {
        var key :| key in keys;
        keys := keys - {key};
        activeStats := activeStats[key := ToStats(active[key], true)];
        results := results + [activeStats[key]];
        order := order + [key];
      }
    }

    method Update(snapshots: seq<TransferSnapshot>, now: Time)
      returns (results: seq<OneWayStats>, ghost order: seq<string>)
      requires Valid()
      modifies this
      ensures Valid() && trace == Then(old(trace), snapshots, now)
      ensures FiniteSums.Enumerates(order, active.Keys) && |results| == |order|
      ensures forall i | 0 <= i < |order| :: order[i] in active && results[i] == ToStats(active[order[i]], true)
      ensures forall i | 0 <= i < |order| :: TellsOneWay(results[i], trace, order[i], direction) && results[i].isActive
    {
      hide TellsOneWay, FirstRows, TrackOneWay, ToStats, ActiveOneWay, ClosedOneWay, NextOneWay, Ended;
      UnfoldUpdate(Then(trace, snapshots, now), direction);
      UnfoldClosed(Then(trace, snapshots, now), direction);
      var nextActive := TrackRows(snapshots, now);
      if seeded {
        CloseMissing(nextActive);
      }
      active := nextActive;
      seeded := true;
      trace := Then(trace, snapshots, now);
      results, order := Publish();
      PublishedOneWay(trace, direction);
    }
  }
}
