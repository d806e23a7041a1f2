/** The tracker itself: the loops of src/network/tracker/TransferRateTracker.cpp over its nine maps.
Iteration over a hash map is an arbitrary choice of the next key. */
module TransferRateTracker {
  import opened Model
  import opened FiniteSums
  import IdentityKey
  import opened TransferAccounting
  import TransferTheorems
  import TransferRecords

  datatype ProcessBandwidthStats = ProcessBandwidthStats(processId: uint32, processName: string, totals: ProcessTotals)

  // ----- What one more entry adds

  lemma {:induction false} InsertCounters(done: map<string, TrackedTransfer>, k: string, t: TrackedTransfer,
      pid: uint32, d: Direction)
    requires k !in done
    ensures var own := t.connection.processId == pid; var grown := done[k := t];
      && CumulativeOf(grown, pid, d)
        == (if own then CumulativeOf(done, pid, d)[k := t.Cumulative(d)] else CumulativeOf(done, pid, d))
      && RatesOf(grown, pid, d) == (if own then RatesOf(done, pid, d)[k := t.Rate(d)] else RatesOf(done, pid, d))
  {
    hide TrackedTransfer.Cumulative, TrackedTransfer.Rate;
  }

  lemma {:induction false} InsertTimes(done: map<string, TrackedTransfer>, k: string, t: TrackedTransfer, pid: uint32)
    requires k !in done
    ensures var own := t.connection.processId == pid; var grown := done[k := t];
      && StartsOf(grown, pid) == StartsOf(done, pid) + (if own then {t.firstObserved} else {})
      && UpdatesOf(grown, pid) == UpdatesOf(done, pid) + (if own then {t.lastUpdated} else {})
  {
    var grown := done[k := t];
    assert grown[k] == t;
    assert forall j | j in done :: j in grown && grown[j] == done[j];
  }

  lemma {:induction false} InsertPid(done: map<string, TrackedTransfer>, k: string, t: TrackedTransfer)
    requires k !in done
    ensures Pids(done[k := t]) == Pids(done) + {t.connection.processId}
  {
    var grown := done[k := t];
    assert grown[k] == t;
    assert forall j | j in done :: j in grown && grown[j] == done[j];
  }

  lemma {:induction false} InsertSums(done: map<string, TrackedTransfer>, k: string, t: TrackedTransfer, pid: uint32,
      d: Direction)
    requires k !in done
    ensures var own := t.connection.processId == pid; var grown := done[k := t];
      && Total(CumulativeOf(grown, pid, d)) == Total(CumulativeOf(done, pid, d)) + (if own then t.Cumulative(d) else 0)
      && RealTotal(RatesOf(grown, pid, d)) == RealTotal(RatesOf(done, pid, d)) + (if own then t.Rate(d) else 0.0)
      && |CumulativeOf(grown, pid, d)| == |CumulativeOf(done, pid, d)| + (if own then 1 else 0)
  {
    hide Total, RealTotal;
    InsertCounters(done, k, t, pid, d);
    if t.connection.processId == pid {
      TotalInsert(CumulativeOf(done, pid, d), k, t.Cumulative(d));
      RealTotalInsert(RatesOf(done, pid, d), k, t.Rate(d));
    }
  }

  lemma {:induction false} MinInsert(s: set<Time>, t: Time)
    requires s != {}
    ensures MinTime(s + {t}) == if t < MinTime(s) then t else MinTime(s)
  {
    hide MinTime;
    var m := MinTime(s + {t});
    assert MinTime(s) in s + {t} && t in s + {t};
  }

  lemma {:induction false} MaxInsert(s: set<Time>, t: Time)
    requires s != {}
    ensures MaxTime(s + {t}) == if t > MaxTime(s) then t else MaxTime(s)
  {
    hide MaxTime;
    var m := MaxTime(s + {t});
    assert MaxTime(s) in s + {t} && t in s + {t};
  }

  lemma {:induction false} FoldInsertAt(closed: map<uint32, uint64>, gone: map<string, TrackedTransfer>, k: string,
      t: TrackedTransfer, d: Direction, pid: uint32)
    requires k !in gone
    ensures var was := GetOrZero(Fold(closed, gone, d), pid);
      GetOrZero(Fold(closed, gone[k := t], d), pid) == if pid == t.connection.processId then Wrap(was + t.Cumulative(d))
        else was
  {
    hide Wrap, Total, RealTotal, RatesOf, CumulativeOf, Fold, GetOrZero, TrackedTransfer.Cumulative,
      TrackedTransfer.Rate;
    TransferTheorems.FoldAt(closed, gone, pid, d);
    TransferTheorems.FoldAt(closed, gone[k := t], pid, d);
    InsertSums(gone, k, t, pid, d);
    WrapAdd(GetOrZero(closed, pid) + Total(CumulativeOf(gone, pid, d)), t.Cumulative(d));
  }

  lemma {:induction false} FoldKeys(closed: map<uint32, uint64>, gone: map<string, TrackedTransfer>, d: Direction)
    ensures Fold(closed, gone, d).Keys == closed.Keys + Pids(gone)
  {
    hide Wrap, Total, CumulativeOf;
  }

  lemma {:induction false} FoldInsert(closed: map<uint32, uint64>, gone: map<string, TrackedTransfer>, k: string,
      t: TrackedTransfer, d: Direction)
    requires k !in gone
    ensures var pid := t.connection.processId;
      Fold(closed, gone[k := t], d) ==
        Fold(closed, gone, d)[pid := Wrap(GetOrZero(Fold(closed, gone, d), pid) + t.Cumulative(d))]
  {
    hide Wrap, Total, CumulativeOf, Fold, Pids, TrackedTransfer.Cumulative;
    InsertPid(gone, k, t);
    FoldKeys(closed, gone, d);
    FoldKeys(closed, gone[k := t], d);
    var was, now, owner := Fold(closed, gone, d), Fold(closed, gone[k := t], d), t.connection.processId;
    forall pid | pid in now
      ensures now[pid] == if pid == owner then Wrap(GetOrZero(was, pid) + t.Cumulative(d)) else was[pid]
    {
      FoldInsertAt(closed, gone, k, t, d, pid);
    }
  }

  lemma {:induction false} EarliestInsertAt(firstSeen: map<uint32, Time>, active: map<string, TrackedTransfer>,
      k: string, t: TrackedTransfer, pid: uint32)
    requires k !in active && pid in Earliest(firstSeen, active[k := t])
    ensures var seen := Earliest(firstSeen, active);
      Earliest(firstSeen, active[k := t])[pid] ==
      if pid == t.connection.processId && (pid !in seen || t.firstObserved < seen[pid]) then t.firstObserved
      else if pid in seen then seen[pid] else t.firstObserved
  {
    hide MinTime, StartsOf;
    InsertPid(active, k, t);
    InsertTimes(active, k, t, pid);
    var known := if pid in firstSeen then {firstSeen[pid]} else {};
    var was, starts := StartsOf(active, pid), StartsOf(active[k := t], pid);
    if pid != t.connection.processId {
      assert starts == was;
    } else {
      assert known + starts == known + was + {t.firstObserved};
      if pid in firstSeen.Keys + Pids(active) {
        MinInsert(known + was, t.firstObserved);
      } else {
        NoStarts(active, pid);
        assert known + starts == {t.firstObserved};
      }
    }
  }

  lemma {:induction false} EarliestKeys(firstSeen: map<uint32, Time>, active: map<string, TrackedTransfer>)
    ensures Earliest(firstSeen, active).Keys == firstSeen.Keys + Pids(active)
  {
    hide MinTime, StartsOf;
  }

  lemma {:induction false} EarliestInsert(firstSeen: map<uint32, Time>, active: map<string, TrackedTransfer>, k: string,
      t: TrackedTransfer)
    requires k !in active
    ensures var seen := Earliest(firstSeen, active); var pid := t.connection.processId;
      Earliest(firstSeen, active[k := t]) ==
      if pid !in seen || t.firstObserved < seen[pid] then seen[pid := t.firstObserved] else seen
  {
    hide MinTime, StartsOf, Earliest, Pids;
    var was, now, owner := Earliest(firstSeen, active), Earliest(firstSeen, active[k := t]), t.connection.processId;
    EarliestKeys(firstSeen, active);
    EarliestKeys(firstSeen, active[k := t]);
    InsertPid(active, k, t);
    forall pid | pid in now
      ensures now[pid] == if pid == owner && (pid !in was || t.firstObserved < was[pid]) then t.firstObserved
        else was[pid]
    {
      EarliestInsertAt(firstSeen, active, k, t, pid);
    }
  }

  lemma {:induction false} NoStarts(active: map<string, TrackedTransfer>, pid: uint32)
    requires pid !in Pids(active)
    ensures StartsOf(active, pid) == {}
  {
  }

  // ----- Process names: the code takes the first non-empty one in map order

  ghost function NamesOf(active: map<string, TrackedTransfer>, pid: uint32): set<string> {
    set k | k in active && active[k].connection.processId == pid && active[k].processName != "" :: active[k].processName
  }

  /** The non-empty names that the deduplicated snapshots ever gave a process. */
  ghost function KnownNames(trace: Trace, pid: uint32): set<string> {
    if trace == Start then {} else
      KnownNames(trace.before, pid) +
      set k | k in LastRows(trace) && LastRows(trace)[k].connection.processId == pid &&
        LastRows(trace)[k].processName != "" ::
        LastRows(trace)[k].processName
  }

  ghost predicate Fits(name: string, known: set<string>) {
    if known == {} then name == "" else name in known
  }

  /** `after` is `names` once the non-empty names of `active` were stored, the last one of each process winning. */
  ghost predicate Renamed(names: map<uint32, string>, after: map<uint32, string>,
      active: map<string, TrackedTransfer>) {
    && (forall pid :: pid in after <==> pid in names || NamesOf(active, pid) != {})
    && forall pid | pid in after ::
      if NamesOf(active, pid) == {} then pid in names && after[pid] == names[pid]
        else after[pid] in NamesOf(active, pid)
  }

  lemma {:induction false} InsertName(done: map<string, TrackedTransfer>, k: string, t: TrackedTransfer, pid: uint32)
    requires k !in done
    ensures NamesOf(done[k := t], pid)
      == NamesOf(done, pid) + if t.connection.processId == pid && t.processName != "" then {t.processName} else {}
  {
    var grown := done[k := t];
    assert grown[k] == t;
    assert forall j | j in done :: j in grown && grown[j] == done[j];
  }

  lemma {:induction false} RenamedInsert(names: map<uint32, string>, after: map<uint32, string>,
      done: map<string, TrackedTransfer>, k: string, t: TrackedTransfer)
    requires k !in done && Renamed(names, after, done)
    ensures Renamed(names, if t.processName != "" then after[t.connection.processId := t.processName] else after,
      done[k := t])
  {
    hide NamesOf;
    var owner, grown := t.connection.processId, done[k := t];
    var next := if t.processName != "" then after[owner := t.processName] else after;
    forall pid: uint32
      ensures pid in next <==> pid in names || NamesOf(grown, pid) != {}
      ensures pid in next ==>
        if NamesOf(grown, pid) == {} then pid in names && next[pid] == names[pid] else next[pid] in NamesOf(grown, pid)
    {
      InsertName(done, k, t, pid);
      if pid == owner && t.processName != "" {
        assert t.processName in NamesOf(grown, pid);
      } else {
        assert NamesOf(grown, pid) == NamesOf(done, pid);
      }
    }
  }

  lemma {:induction false} ActiveNames(trace: Trace, pid: uint32)
    ensures NamesOf(Active(trace), pid) <= KnownNames(trace, pid)
    ensures trace != Start ==> KnownNames(trace, pid) <= KnownNames(trace.before, pid) + NamesOf(Active(trace), pid)
  {
    hide FirstRows, Wrap, RateOver;
    if trace != Start {
      ActiveNames(trace.before, pid);
      ActiveMirrorsSnapshot(trace.before);
      forall k | k in Active(trace) && Active(trace)[k].connection.processId == pid &&
        Active(trace)[k].processName != ""
        ensures Active(trace)[k].processName in KnownNames(trace, pid)
      {
        if LastRows(trace)[k].processName == "" {
          PriorOwner(trace, k);
          assert Active(trace.before)[k].processName in NamesOf(Active(trace.before), pid);
        }
      }
      forall k | k in LastRows(trace) && LastRows(trace)[k].connection.processId == pid &&
        LastRows(trace)[k].processName != ""
        ensures LastRows(trace)[k].processName in NamesOf(Active(trace), pid)
      {
        assert Active(trace)[k].processName in NamesOf(Active(trace), pid);
      }
    }
  }

  lemma {:induction false} GoneNames(trace: Trace, pid: uint32)
    requires trace != Start
    ensures NamesOf(Gone(trace), pid) <= KnownNames(trace.before, pid) <= KnownNames(trace, pid)
  {
    hide FirstRows, Active;
    ActiveNames(trace.before, pid);
    assert NamesOf(Gone(trace), pid) <= NamesOf(Active(trace.before), pid) by {
      forall k | k in Gone(trace) && Gone(trace)[k].connection.processId == pid && Gone(trace)[k].processName != ""
        ensures Gone(trace)[k].processName in NamesOf(Active(trace.before), pid)
      {
        assert Active(trace.before)[k] == Gone(trace)[k];
      }
    }
  }

  // ----- Aggregation of one process

  /** The accumulator of rebuildProcessStats. */
  datatype Partial = Partial(
    processName: string,
    uploadedBytes: uint64,
    downloadedBytes: uint64,
    uploadRate: real,
    downloadRate: real,
    firstObserved: Time,
    lastUpdated: Time,
    activeConnectionCount: nat,
    hasFirst: bool)

  const NOTHING: Partial := Partial("", 0, 0, 0.0, 0.0, EPOCH, EPOCH, 0, false)

  function Accumulate(agg: Partial, t: TrackedTransfer): Partial {
    Partial(
      if agg.processName == "" && t.processName != "" then t.processName else agg.processName,
      Wrap(agg.uploadedBytes + t.cumulativeUploaded),
      Wrap(agg.downloadedBytes + t.cumulativeDownloaded),
      agg.uploadRate + t.uploadRate,
      agg.downloadRate + t.downloadRate,
      if !agg.hasFirst || t.firstObserved < agg.firstObserved then t.firstObserved else agg.firstObserved,
      if t.lastUpdated > agg.lastUpdated then t.lastUpdated else agg.lastUpdated,
      agg.activeConnectionCount + 1,
      true)
  }

  ghost predicate Accumulated(agg: Partial, done: map<string, TrackedTransfer>, pid: uint32) {
    && agg.uploadedBytes == Wrap(Total(CumulativeOf(done, pid, Upload)))
    && agg.downloadedBytes == Wrap(Total(CumulativeOf(done, pid, Download)))
    && agg.uploadRate == RealTotal(RatesOf(done, pid, Upload))
    && agg.downloadRate == RealTotal(RatesOf(done, pid, Download))
    && agg.hasFirst == (StartsOf(done, pid) != {})
    && (agg.hasFirst ==> agg.firstObserved == MinTime(StartsOf(done, pid)))
    && agg.lastUpdated == MaxTime({EPOCH} + UpdatesOf(done, pid))
    && agg.activeConnectionCount == |CumulativeOf(done, pid, Upload)|
    && Fits(agg.processName, NamesOf(done, pid))
  }

  lemma {:induction false} AccumulatedNothing(done: map<string, TrackedTransfer>, pid: uint32)
    requires pid !in Pids(done)
    ensures Accumulated(NOTHING, done, pid)
  {
    assert CumulativeOf(done, pid, Upload) == map[] && CumulativeOf(done, pid, Download) == map[];
    assert RatesOf(done, pid, Upload) == map[] && RatesOf(done, pid, Download) == map[];
    NoStarts(done, pid);
    assert {EPOCH} + UpdatesOf(done, pid) == {EPOCH};
    assert NamesOf(done, pid) == {};
  }

  lemma {:induction false} AccumulateOther(agg: Partial, done: map<string, TrackedTransfer>, k: string,
      t: TrackedTransfer, pid: uint32)
    requires k !in done && t.connection.processId != pid && Accumulated(agg, done, pid)
    ensures Accumulated(agg, done[k := t], pid)
  {
    hide Total, RealTotal, MinTime, MaxTime, Wrap, CumulativeOf, RatesOf, StartsOf, UpdatesOf, NamesOf;
    InsertCounters(done, k, t, pid, Upload);
    InsertCounters(done, k, t, pid, Download);
    InsertTimes(done, k, t, pid);
    InsertName(done, k, t, pid);
  }

  lemma {:induction false} AccumulateOwn(agg: Partial, done: map<string, TrackedTransfer>, k: string,
      t: TrackedTransfer, pid: uint32)
    requires k !in done && t.connection.processId == pid && Accumulated(agg, done, pid)
    ensures Accumulated(Accumulate(agg, t), done[k := t], pid)
  {
    hide Total, RealTotal, MinTime, MaxTime, Wrap, CumulativeOf, RatesOf, StartsOf, UpdatesOf, NamesOf;
    InsertSums(done, k, t, pid, Upload);
    InsertSums(done, k, t, pid, Download);
    WrapAdd(Total(CumulativeOf(done, pid, Upload)), t.cumulativeUploaded);
    WrapAdd(Total(CumulativeOf(done, pid, Download)), t.cumulativeDownloaded);
    InsertTimes(done, k, t, pid);
    InsertName(done, k, t, pid);
    if agg.hasFirst {
      MinInsert(StartsOf(done, pid), t.firstObserved);
    } else {
      assert {} + {t.firstObserved} == {t.firstObserved};
    }
    var lasts := {EPOCH} + UpdatesOf(done, pid);
    MaxInsert(lasts, t.lastUpdated);
    assert {EPOCH} + UpdatesOf(done[k := t], pid) == lasts + {t.lastUpdated};
  }

  /** The second pass of rebuildProcessStats: closed totals, a stored name, an earlier start. */
  function WithClosed(agg: Partial, pid: uint32, closedUploaded: map<uint32, uint64>,
      closedDownloaded: map<uint32, uint64>, names: map<uint32, string>, firstSeen: map<uint32, Time>): Partial
  {
    var earlier := pid in firstSeen && (!agg.hasFirst || firstSeen[pid] < agg.firstObserved);
    var uploaded := if pid in closedUploaded then Wrap(agg.uploadedBytes + closedUploaded[pid]) else agg.uploadedBytes;
    var downloaded :=
      if pid in closedDownloaded then Wrap(agg.downloadedBytes + closedDownloaded[pid]) else agg.downloadedBytes;
    agg.(uploadedBytes := uploaded,
      downloadedBytes := downloaded,
      processName := if agg.processName == "" && pid in names then names[pid] else agg.processName,
      firstObserved := if earlier then firstSeen[pid] else agg.firstObserved,
      hasFirst := earlier || agg.hasFirst)
  }

  function ToTotals(agg: Partial): ProcessTotals {
    ProcessTotals(agg.uploadedBytes, agg.downloadedBytes, agg.uploadRate, agg.downloadRate, agg.firstObserved,
      agg.lastUpdated, agg.activeConnectionCount)
  }

  /** After the second pass an entry is the specified aggregate. */
  lemma {:induction false} FoldedIsAggregate(agg: Partial, active: map<string, TrackedTransfer>, pid: uint32,
      closedUploaded: map<uint32, uint64>, closedDownloaded: map<uint32, uint64>, names: map<uint32, string>,
      firstSeen: map<uint32, Time>)
    requires pid in Pids(active) && Accumulated(agg, active, pid)
    requires pid in firstSeen && forall t | t in StartsOf(active, pid) :: firstSeen[pid] <= t
    ensures var folded := WithClosed(agg, pid, closedUploaded, closedDownloaded, names, firstSeen);
      folded.hasFirst &&
      ToTotals(folded) == Aggregate(active, pid, GetOrZero(closedUploaded, pid), GetOrZero(closedDownloaded, pid),
        firstSeen[pid])
  {
    hide Total, RealTotal, MinTime, MaxTime, Wrap, CumulativeOf, RatesOf, StartsOf, UpdatesOf, NamesOf;
    var up, down := Total(CumulativeOf(active, pid, Upload)), Total(CumulativeOf(active, pid, Download));
    WrapAdd(up, GetOrZero(closedUploaded, pid));
    WrapAdd(down, GetOrZero(closedDownloaded, pid));
  }

  lemma {:induction false} EarliestBounds(firstSeen: map<uint32, Time>, active: map<string, TrackedTransfer>,
      pid: uint32)
    requires pid in Pids(active)
    ensures pid in Earliest(firstSeen, active) && forall t | t in StartsOf(active, pid) ::
      Earliest(firstSeen, active)[pid] <= t
  {
    hide StartsOf, MinTime;
  }

  lemma {:induction false} FirstRowsNext(rows: seq<TransferSnapshot>, i: nat)
    requires i < |rows|
    ensures var m, k := FirstRows(rows[..i]), IdentityKey.Key(rows[i].connection);
      FirstRows(rows[..i + 1]) == if k in m then m else m[k := rows[i]]
  {
    hide IdentityKey.Key;
    assert rows[..i + 1][..i] == rows[..i];
  }

  lemma {:induction false} NextActiveInsert(active: map<string, TrackedTransfer>, seeded: bool,
      rows: map<string, TransferSnapshot>, k: string, row: TransferSnapshot, now: Time)
    requires k !in rows
    ensures k !in NextActive(active, seeded, rows, now)
    ensures NextActive(active, seeded, rows[k := row], now)
      == NextActive(active, seeded, rows, now)[k := Track(active, seeded, k, row, now)]
  {
    hide Track;
  }

  ghost function TotalsOf(stats: map<uint32, ProcessBandwidthStats>): map<uint32, ProcessTotals> {
    map pid | pid in stats :: stats[pid].totals
  }

  /** Entries sit under their own PID and carry a name the process was seen with, if it was seen
  with any. */
  ghost predicate Labelled(stats: map<uint32, ProcessBandwidthStats>, trace: Trace) {
    forall pid | pid in stats :: stats[pid].processId == pid && Fits(stats[pid].processName, KnownNames(trace, pid))
  }

  /** A name of one of the process's running connections, if any has one. */
  ghost predicate OwnName(name: string, trace: Trace, pid: uint32) {
    NamesOf(Active(trace), pid) == {} || name in NamesOf(Active(trace), pid)
  }

  ghost predicate NamedByConnections(stats: map<uint32, ProcessBandwidthStats>, trace: Trace) {
    forall pid | pid in stats :: OwnName(stats[pid].processName, trace, pid)
  }

  /** The names of a process's running connections are the latest names of their sessions. */
  lemma {:induction false} ConnectionNames(trace: Trace, pid: uint32)
    ensures forall name :: name in NamesOf(Active(trace), pid) <==>
      name != "" && exists k ::
        k in TransferRecords.OwnKeys(trace, pid) && TransferRecords.SessionName(trace, k) == name
  {
    hide FirstRows, Active, TransferRecords.SessionName;
    ActiveMirrorsSnapshot(trace);
    forall k | k in LastRows(trace)
      ensures k in Active(trace) && Active(trace)[k].processName == TransferRecords.SessionName(trace, k)
    {
      TransferRecords.ActiveName(trace, k);
    }
    forall name | name in NamesOf(Active(trace), pid)
      ensures exists k :: k in TransferRecords.OwnKeys(trace, pid) && TransferRecords.SessionName(trace, k) == name
    {
      var k :| k in Active(trace) && Active(trace)[k].connection.processId == pid &&
        Active(trace)[k].processName == name;
      assert k in TransferRecords.OwnKeys(trace, pid);
    }
  }

  ghost predicate NamesStored(names: map<uint32, string>, trace: Trace) {
    && (forall pid | pid in names :: Fits(names[pid], KnownNames(trace, pid)))
    && forall pid :: KnownNames(trace, pid) != {} ==> pid in names
  }

  lemma {:induction false} NamesAfterUpdate(trace: Trace, names: map<uint32, string>, tracked: map<uint32, string>,
      after: map<uint32, string>)
    requires trace != Start && NamesStored(names, trace.before)
    requires Renamed(names, tracked, Active(trace)) && Renamed(tracked, after, Gone(trace))
    ensures NamesStored(after, trace)
  {
    hide KnownNames, NamesOf, Active, Gone;
    forall pid
      ensures NamesOf(Active(trace), pid) <= KnownNames(trace, pid)
        <= KnownNames(trace.before, pid) + NamesOf(Active(trace), pid)
      ensures NamesOf(Gone(trace), pid) <= KnownNames(trace.before, pid) <= KnownNames(trace, pid)
    {
      ActiveNames(trace, pid);
      GoneNames(trace, pid);
    }
  }

  lemma {:induction false} RecordsInsert(closed: map<string, ConnectionBandwidthStats>,
      gone: map<string, TrackedTransfer>, k: string, t: TrackedTransfer)
    ensures closed + Records(gone[k := t]) == (closed + Records(gone))[k := ToConnectionStats(t, false)]
  {
    hide ToConnectionStats;
  }

  /** The missing connections that a closing loop has visited, `keys` being still to visit. */
  ghost function Missed(active: map<string, TrackedTransfer>, nextActive: map<string, TrackedTransfer>,
      keys: set<string>): map<string, TrackedTransfer> {
    map k | k in active && k !in keys && k !in nextActive :: active[k]
  }

  lemma {:induction false} MissedNext(active: map<string, TrackedTransfer>, nextActive: map<string, TrackedTransfer>,
      keys: set<string>, k: string)
    requires k in keys && keys <= active.Keys
    ensures k !in Missed(active, nextActive, keys)
    ensures Missed(active, nextActive, keys - {k}) ==
      if k in nextActive then Missed(active, nextActive, keys) else Missed(active, nextActive, keys)[k := active[k]]
  {
  }

  lemma {:induction false} FoldNone(closed: map<uint32, uint64>, none: map<string, TrackedTransfer>, d: Direction)
    requires none.Keys == {}
    ensures Fold(closed, none, d) == closed
  {
    hide Wrap, Total, CumulativeOf;
    assert Pids(none) == {};
    forall pid | pid in closed ensures Fold(closed, none, d)[pid] == closed[pid] {
      TransferTheorems.NothingOwned(none, pid, d);
      WrapSmall(closed[pid]);
    }
  }

  lemma {:induction false} EarliestNone(firstSeen: map<uint32, Time>)
    ensures Earliest(firstSeen, map[]) == firstSeen
  {
    hide MinTime;
    forall pid | pid in firstSeen ensures Earliest(firstSeen, map[])[pid] == firstSeen[pid] {
      NoStarts(map[], pid);
      assert {firstSeen[pid]} + StartsOf(map[], pid) == {firstSeen[pid]};
    }
  }

  // ----- The rebuilt process maps

  lemma {:induction false} FoldedEntry(trace: Trace, agg: Partial, pid: uint32, names: map<uint32, string>)
    requires trace != Start && pid in Pids(Active(trace)) && Accumulated(agg, Active(trace), pid)
    requires NamesStored(names, trace)
    ensures var folded := WithClosed(agg, pid, Closed(trace, Upload), Closed(trace, Download), names, FirstSeen(trace));
      && pid in ActiveProcesses(trace) && ToTotals(folded) == ActiveProcesses(trace)[pid]
      && pid in FirstSeen(trace) && folded.firstObserved == FirstSeen(trace)[pid]
      && Fits(folded.processName, KnownNames(trace, pid)) && OwnName(folded.processName, trace, pid)
  {
    hide Active, Closed, KnownNames, Accumulated, Total, RealTotal, MinTime, MaxTime, Wrap;
    TransferTheorems.FirstSeenPids(trace);
    EarliestBounds(FirstSeen(trace.before), Active(trace), pid);
    FoldedIsAggregate(agg, Active(trace), pid, Closed(trace, Upload), Closed(trace, Download), names, FirstSeen(trace));
    ActiveNames(trace, pid);
    AccumulatedName(agg, Active(trace), pid);
  }

  lemma {:induction false} AccumulatedName(agg: Partial, active: map<string, TrackedTransfer>, pid: uint32)
    requires Accumulated(agg, active, pid)
    ensures Fits(agg.processName, NamesOf(active, pid))
  {
  }

  lemma {:induction false} InactiveNames(trace: Trace, pid: uint32)
    requires trace != Start && pid !in Pids(Active(trace))
    ensures KnownNames(trace, pid) == KnownNames(trace.before, pid)
  {
    hide FirstRows, Active;
    ActiveMirrorsSnapshot(trace);
    assert forall k | k in LastRows(trace) :: LastRows(trace)[k].connection.processId != pid;
  }

  // ----- The closed maps after an update

  lemma {:induction false} SeededClosing(trace: Trace)
    requires trace != Start && trace.before != Start
    ensures Missed(Active(trace.before), Active(trace), {}) == Gone(trace)
  {
    hide FirstRows, Track;
    ActiveMirrorsSnapshot(trace);
  }

  lemma {:induction false} SeedingClosesNothing(trace: Trace, names: map<uint32, string>)
    requires trace != Start && trace.before == Start
    ensures ClosedConnections(trace) == ClosedConnections(trace.before)
    ensures Closed(trace, Upload) == Closed(trace.before, Upload)
    ensures Closed(trace, Download) == Closed(trace.before, Download)
    ensures Renamed(names, names, Gone(trace))
  {
    hide FirstRows, Track, Fold;
    assert Gone(trace).Keys == {};
    FoldNone(Closed(trace.before, Upload), Gone(trace), Upload);
    FoldNone(Closed(trace.before, Download), Gone(trace), Download);
    assert forall pid :: NamesOf(Gone(trace), pid) == {};
  }

  ghost function Retired(active: map<uint32, ProcessBandwidthStats>, closed: map<uint32, ProcessBandwidthStats>,
      stillActive: set<uint32>, closedUploaded: map<uint32, uint64>,
      closedDownloaded: map<uint32, uint64>) : map<uint32, ProcessBandwidthStats>
  {
    map pid | pid in (active.Keys + closed.Keys) - stillActive ::
      if pid in active
      then ProcessBandwidthStats(pid, active[pid].processName,
        Retire(active[pid].totals, pid, closedUploaded, closedDownloaded))
      else closed[pid]
  }

  lemma {:induction false} NothingRetired(none: map<uint32, ProcessBandwidthStats>,
      closed: map<uint32, ProcessBandwidthStats>, stillActive: set<uint32>, closedUploaded: map<uint32, uint64>,
      closedDownloaded: map<uint32, uint64>)
    requires none.Keys == {}
    ensures Retired(none, closed, stillActive, closedUploaded, closedDownloaded) == closed - stillActive
  {
  }

  lemma {:induction false} RetiredNext(active: map<uint32, ProcessBandwidthStats>, pids: set<uint32>, pid: uint32,
      closed: map<uint32, ProcessBandwidthStats>, stillActive: set<uint32>, closedUploaded: map<uint32, uint64>,
      closedDownloaded: map<uint32, uint64>)
    requires pid in pids && pids <= active.Keys
    ensures var was := Retired(active - pids, closed, stillActive, closedUploaded, closedDownloaded);
      Retired(active - (pids - {pid}), closed, stillActive, closedUploaded, closedDownloaded) ==
        if pid in stillActive then was
        else was[pid := ProcessBandwidthStats(pid, active[pid].processName,
          Retire(active[pid].totals, pid, closedUploaded, closedDownloaded))]
  {
    hide Retire;
  }

  lemma {:induction false} RetiredTotals(trace: Trace, active: map<uint32, ProcessBandwidthStats>,
      closed: map<uint32, ProcessBandwidthStats>)
    requires trace != Start
    requires TotalsOf(active) == ActiveProcesses(trace.before) && TotalsOf(closed) == ClosedProcesses(trace.before)
    ensures TotalsOf(Retired(active, closed, Pids(Active(trace)), Closed(trace, Upload), Closed(trace, Download)))
      == ClosedProcesses(trace)
  {
    hide Active, Closed, ActiveProcesses, Retire, Pids;
    assert active.Keys == TotalsOf(active).Keys && closed.Keys == TotalsOf(closed).Keys;
  }

  lemma {:induction false} RetiredLabels(trace: Trace, active: map<uint32, ProcessBandwidthStats>,
      closed: map<uint32, ProcessBandwidthStats>)
    requires trace != Start && Labelled(active, trace.before) && Labelled(closed, trace.before)
    ensures Labelled(Retired(active, closed, Pids(Active(trace)), Closed(trace, Upload), Closed(trace, Download)),
      trace)
  {
    hide Active, Closed, KnownNames, Retire, Pids, Fits;
    forall pid | pid !in Pids(Active(trace)) ensures KnownNames(trace, pid) == KnownNames(trace.before, pid) {
      InactiveNames(trace, pid);
    }
  }

  lemma {:induction false} PublishedTotals(trace: Trace, folded: map<uint32, Partial>,
      stats: map<uint32, ProcessBandwidthStats>)
    requires folded.Keys == ActiveProcesses(trace).Keys == stats.Keys
    requires forall pid | pid in folded ::
      ToTotals(folded[pid]) == ActiveProcesses(trace)[pid] && Fits(folded[pid].processName, KnownNames(trace, pid))
    requires forall pid | pid in folded :: OwnName(folded[pid].processName, trace, pid)
    requires forall pid | pid in folded ::
      stats[pid] == ProcessBandwidthStats(pid, folded[pid].processName, ToTotals(folded[pid]))
    ensures TotalsOf(stats) == ActiveProcesses(trace) && Labelled(stats, trace) && NamedByConnections(stats, trace)
  {
    hide ActiveProcesses, KnownNames, Fits, ToTotals, OwnName;
  }

  lemma {:induction false} PublishedNames(trace: Trace, folded: map<uint32, Partial>, names: map<uint32, string>)
    requires NamesStored(names, trace)
    requires forall pid | pid in folded :: Fits(folded[pid].processName, KnownNames(trace, pid))
    ensures NamesStored(Titled(names, folded, {}), trace)
  {
    hide KnownNames, Fits;
  }

  lemma {:induction false} PublishedStarts(firstSeen: map<uint32, Time>, folded: map<uint32, Partial>)
    requires forall pid | pid in folded :: pid in firstSeen && folded[pid].firstObserved == firstSeen[pid]
    ensures Improved(firstSeen, folded, {}) == firstSeen
  {
  }

  lemma {:induction false} UnfoldUpdate(trace: Trace)
    requires trace != Start
    ensures Active(trace) == NextActive(Active(trace.before), trace.before != Start, FirstRows(trace.snapshots),
      trace.now)
    ensures FirstSeen(trace) == Earliest(FirstSeen(trace.before), Active(trace))
    ensures ClosedConnections(trace) == ClosedConnections(trace.before) + Records(Gone(trace))
    ensures Closed(trace, Upload) == Fold(Closed(trace.before, Upload), Gone(trace), Upload)
    ensures Closed(trace, Download) == Fold(Closed(trace.before, Download), Gone(trace), Download)
  {
    hide FirstRows, NextActive, Earliest, Fold, Records, Missing;
  }

  /** What the maps are before any update. */
  lemma {:induction false} NothingYet()
    ensures Active(Start) == map[] && ClosedConnections(Start) == map[] && FirstSeen(Start) == map[]
    ensures Closed(Start, Upload) == map[] && Closed(Start, Download) == map[] && ClosedProcesses(Start) == map[]
    ensures ActiveProcesses(Start).Keys == {} && forall pid :: KnownNames(Start, pid) == {}
  {
    hide FirstRows, NextActive, Earliest, Fold, Aggregate;
  }

  lemma {:induction false} NothingPublished()
    ensures StatsOf(map[]) == map[] && TotalsOf(map[]) == ActiveProcesses(Start) == ClosedProcesses(Start)
    ensures Labelled(map[], Start) && NamedByConnections(map[], Start) && NamesStored(map[], Start)
  {
    NothingYet();
    hide Active, FirstSeen, ActiveProcesses, ClosedProcesses, KnownNames, Fits, ToConnectionStats;
    assert ActiveProcesses(Start) == map[];
  }

  /** activeConnectionStats_. */
  ghost function StatsOf(active: map<string, TrackedTransfer>): map<string, ConnectionBandwidthStats> {
    map k | k in active :: ToConnectionStats(active[k], true)
  }

  /** The transfers outside `keys`, which are still to visit. */
  ghost function Visited(active: map<string, TrackedTransfer>, keys: set<string>): map<string, TrackedTransfer> {
    map k | k in active && k !in keys :: active[k]
  }

  lemma {:induction false} VisitedNext(active: map<string, TrackedTransfer>, keys: set<string>, k: string)
    requires k in keys && keys <= active.Keys
    ensures k !in Visited(active, keys) && Visited(active, keys - {k}) == Visited(active, keys)[k := active[k]]
  {
  }

  lemma {:induction false} AllVisited(active: map<string, TrackedTransfer>)
    ensures Visited(active, {}) == active && Pids(Visited(active, active.Keys)) == {}
  {
  }

  class TransferRateTracker {
    var activeTransfers: map<string, TrackedTransfer>
    var activeConnectionStats: map<string, ConnectionBandwidthStats>
    var closedConnectionStats: map<string, ConnectionBandwidthStats>
    var activeProcessStats: map<uint32, ProcessBandwidthStats>
    var closedProcessStats: map<uint32, ProcessBandwidthStats>
    var closedUploadedByProcess: map<uint32, uint64>
    var closedDownloadedByProcess: map<uint32, uint64>
    var processNames: map<uint32, string>
    var processFirstObserved: map<uint32, Time>
    var seeded: bool
    /** The updates since construction or reset. */
    ghost var trace: Trace

    /** Every field is the specified function of the trace. */
    ghost predicate Valid()
      reads this
    {
      && seeded == (trace != Start)
      && activeTransfers == Active(trace)
      && activeConnectionStats == StatsOf(activeTransfers)
      && closedConnectionStats == ClosedConnections(trace)
      && closedUploadedByProcess == Closed(trace, Upload)
      && closedDownloadedByProcess == Closed(trace, Download)
      && processFirstObserved == FirstSeen(trace)
      && TotalsOf(activeProcessStats) == ActiveProcesses(trace)
      && TotalsOf(closedProcessStats) == ClosedProcesses(trace)
      && Labelled(activeProcessStats, trace)
      && Labelled(closedProcessStats, trace)
      && NamedByConnections(activeProcessStats, trace)
      && NamesStored(processNames, trace)
    }

    constructor ()
      ensures Valid() && trace == Start
    {
      NothingYet();
      NothingPublished();
      hide Active, ClosedConnections, FirstSeen, Closed, ClosedProcesses, ActiveProcesses, StatsOf, TotalsOf, Labelled,
        NamedByConnections, NamesStored;
      activeTransfers, activeConnectionStats, closedConnectionStats := map[], map[], map[];
      activeProcessStats, closedProcessStats := map[], map[];
      closedUploadedByProcess, closedDownloadedByProcess := map[], map[];
      processNames, processFirstObserved, seeded := map[], map[], false;
      trace := Start;
    }

    method Reset()
      modifies this
      ensures Valid() && trace == Start
    {
      NothingYet();
      NothingPublished();
      hide Active, ClosedConnections, FirstSeen, Closed, ClosedProcesses, ActiveProcesses, StatsOf, TotalsOf, Labelled,
        NamedByConnections, NamesStored;
      activeTransfers, activeConnectionStats, closedConnectionStats := map[], map[], map[];
      activeProcessStats, closedProcessStats := map[], map[];
      closedUploadedByProcess, closedDownloadedByProcess := map[], map[];
      processNames, processFirstObserved, seeded := map[], map[], false;
      trace := Start;
    }

    lemma {:induction false} NothingTracked(snapshots: seq<TransferSnapshot>, now: Time)
      ensures FirstRows(snapshots[..0]) == map[]
      ensures NextActive(activeTransfers, seeded, FirstRows(snapshots[..0]), now) == map[]
      ensures Renamed(processNames, processNames, map[])
      ensures Earliest(processFirstObserved, map[]) == processFirstObserved
    {
      assert snapshots[..0] == [];
      EarliestNone(processFirstObserved);
      assert forall pid :: NamesOf(map[], pid) == {};
    }

    /** The first loop of `update`: deduplicate, take deltas, note names and start times. */
    method TrackRows(snapshots: seq<TransferSnapshot>, now: Time) returns (nextActive: map<string, TrackedTransfer>)
      modifies `processNames, `processFirstObserved
      ensures nextActive == NextActive(activeTransfers, seeded, FirstRows(snapshots), now)
      ensures processFirstObserved == Earliest(old(processFirstObserved), nextActive)
      ensures Renamed(old(processNames), processNames, nextActive)
    {
      hide IdentityKey.Key, FirstRows, NextActive, Earliest, Renamed, NamesOf, Track, Wrap;
      nextActive := map[];
      var seen: set<string> := {};
      NothingTracked(snapshots, now);
      for i := 0 to |snapshots|
        invariant seen == FirstRows(snapshots[..i]).Keys
        invariant nextActive == NextActive(activeTransfers, seeded, FirstRows(snapshots[..i]), now)
        invariant processFirstObserved == Earliest(old(processFirstObserved), nextActive)
        invariant Renamed(old(processNames), processNames, nextActive)
      {
        var row := snapshots[i];
        var key := IdentityKey.Key(row.connection);
        FirstRowsNext(snapshots, i);
        if key !in seen {
          seen := seen + {key};
          var tracked := Track(activeTransfers, seeded, key, row, now);
          var pid := tracked.connection.processId;
          NextActiveInsert(activeTransfers, seeded, FirstRows(snapshots[..i]), key, row, now);
          RenamedInsert(old(processNames), processNames, nextActive, key, tracked);
          EarliestInsert(old(processFirstObserved), nextActive, key, tracked);
          if tracked.processName != "" {
            processNames := processNames[pid := tracked.processName];
          }
          if pid !in processFirstObserved || tracked.firstObserved < processFirstObserved[pid] {
            processFirstObserved := processFirstObserved[pid := tracked.firstObserved];
          }
          nextActive := nextActive[key := tracked];
        }
      }
      assert snapshots[..|snapshots|] == snapshots;
    }

    /** The closing loop of `update`: every key missing from the new snapshot moves to the closed
    map and into its process's accumulators. */
    method CloseMissing(nextActive: map<string, TrackedTransfer>)
      modifies `closedConnectionStats, `closedUploadedByProcess, `closedDownloadedByProcess, `processNames
      ensures var gone := Missed(activeTransfers, nextActive, {});
        && closedConnectionStats == old(closedConnectionStats) + Records(gone)
        && closedUploadedByProcess == Fold(old(closedUploadedByProcess), gone, Upload)
        && closedDownloadedByProcess == Fold(old(closedDownloadedByProcess), gone, Download)
        && Renamed(old(processNames), processNames, gone)
    {
      hide Fold, Renamed, NamesOf, Wrap, Records, GetOrZero, Missed;
      var keys := activeTransfers.Keys;
      NothingMissed(nextActive);
      while keys != {}
        invariant keys <= activeTransfers.Keys
        invariant closedConnectionStats
          == old(closedConnectionStats) + Records(Missed(activeTransfers, nextActive, keys))
        invariant closedUploadedByProcess
          == Fold(old(closedUploadedByProcess), Missed(activeTransfers, nextActive, keys), Upload)
        invariant closedDownloadedByProcess
          == Fold(old(closedDownloadedByProcess), Missed(activeTransfers, nextActive, keys), Download)
        invariant Renamed(old(processNames), processNames, Missed(activeTransfers, nextActive, keys))
      {
        var key :| key in keys;
        ghost var gone := Missed(activeTransfers, nextActive, keys);
        MissedNext(activeTransfers, nextActive, keys, key);
        keys := keys - {key};
        if key !in nextActive {
          var previous := activeTransfers[key];
          var pid := previous.connection.processId;
          RecordsInsert(old(closedConnectionStats), gone, key, previous);
          FoldInsert(old(closedUploadedByProcess), gone, key, previous, Upload);
          FoldInsert(old(closedDownloadedByProcess), gone, key, previous, Download);
          RenamedInsert(old(processNames), processNames, gone, key, previous);
          closedConnectionStats := closedConnectionStats[key := ToConnectionStats(previous, false)];
          closedUploadedByProcess := closedUploadedByProcess[pid :=
            Wrap(GetOrZero(closedUploadedByProcess, pid) + previous.cumulativeUploaded)];
          closedDownloadedByProcess := closedDownloadedByProcess[pid :=
            Wrap(GetOrZero(closedDownloadedByProcess, pid) + previous.cumulativeDownloaded)];
          if previous.processName != "" {
            processNames := processNames[pid := previous.processName];
          }
        }
      }
    }

    lemma {:induction false} NothingMissed(nextActive: map<string, TrackedTransfer>)
      ensures var none := Missed(activeTransfers, nextActive, activeTransfers.Keys);
        && closedConnectionStats + Records(none) == closedConnectionStats
        && Fold(closedUploadedByProcess, none, Upload) == closedUploadedByProcess
        && Fold(closedDownloadedByProcess, none, Download) == closedDownloadedByProcess
        && Renamed(processNames, processNames, none)
    {
      var none := Missed(activeTransfers, nextActive, activeTransfers.Keys);
      assert none.Keys == {};
      FoldNone(closedUploadedByProcess, none, Upload);
      FoldNone(closedDownloadedByProcess, none, Download);
      assert forall pid :: NamesOf(none, pid) == {};
    }

    /** Rebuild the per-connection statistics and return them in map order. */
    method PublishConnections() returns (results: seq<ConnectionBandwidthStats>, ghost order: seq<string>)
      modifies `activeConnectionStats
      ensures activeConnectionStats == StatsOf(activeTransfers)
      ensures Enumerates(order, activeTransfers.Keys) && |results| == |order|
      ensures forall i | 0 <= i < |order| ::
        order[i] in activeTransfers && results[i] == ToConnectionStats(activeTransfers[order[i]], true)
    {
      hide ToConnectionStats;
      activeConnectionStats, results, order := map[], [], [];
      var keys := activeTransfers.Keys;
      while keys != {}
        invariant keys <= activeTransfers.Keys
        invariant activeConnectionStats == map k | k in activeTransfers && k !in keys ::
          ToConnectionStats(activeTransfers[k], true)
        invariant Enumerates(order, activeTransfers.Keys - keys) && |results| == |order|
        invariant forall i | 0 <= i < |order| :: order[i] in activeTransfers
        invariant forall i | 0 <= i < |order| :: results[i] == ToConnectionStats(activeTransfers[order[i]], true)
      {
        var key :| key in keys;
        keys := keys - {key};
        activeConnectionStats := activeConnectionStats[key := ToConnectionStats(activeTransfers[key], true)];
        results := results + [activeConnectionStats[key]];
        order := order + [key];
      }
    }

    /** The first pass of `rebuildProcessStats`: aggregate the active connections by process. */
    method AggregateActive() returns (aggregates: map<uint32, Partial>)
      ensures aggregates.Keys == Pids(activeTransfers)
      ensures forall pid | pid in aggregates :: Accumulated(aggregates[pid], activeTransfers, pid)
    {
      hide Accumulated, Accumulate, Pids, Visited;
      aggregates := map[];
      var keys := activeTransfers.Keys;
      AllVisited(activeTransfers);
      while keys != {}
        invariant keys <= activeTransfers.Keys
        invariant aggregates.Keys == Pids(Visited(activeTransfers, keys))
        invariant forall pid | pid in aggregates :: Accumulated(aggregates[pid], Visited(activeTransfers, keys), pid)
      {
        var key :| key in keys;
        ghost var done := Visited(activeTransfers, keys);
        VisitedNext(activeTransfers, keys, key);
        keys := keys - {key};
        var tracked := activeTransfers[key];
        var pid := tracked.connection.processId;
        if pid !in aggregates {
          AccumulatedNothing(done, pid);
        }
        InsertPid(done, key, tracked);
        forall other | other in aggregates && other != pid
          ensures Accumulated(aggregates[other], done[key := tracked], other)
        {
          AccumulateOther(aggregates[other], done, key, tracked, other);
        }
        var agg := if pid in aggregates then aggregates[pid] else NOTHING;
        AccumulateOwn(agg, done, key, tracked, pid);
        aggregates := aggregates[pid := Accumulate(agg, tracked)];
      }
    }

    /** The second pass: fold in the closed totals. */
    method FoldClosed(aggregates: map<uint32, Partial>) returns (folded: map<uint32, Partial>)
      ensures folded == map pid | pid in aggregates ::
        WithClosed(aggregates[pid], pid, closedUploadedByProcess, closedDownloadedByProcess, processNames,
          processFirstObserved)
    {
      hide WithClosed;
      folded := map[];
      var pids := aggregates.Keys;
      while pids != {}
        invariant pids <= aggregates.Keys
        invariant folded == map pid | pid in aggregates && pid !in pids ::
          WithClosed(aggregates[pid], pid, closedUploadedByProcess, closedDownloadedByProcess, processNames,
            processFirstObserved)
      {
        var pid :| pid in pids;
        pids := pids - {pid};
        folded := folded[pid := WithClosed(aggregates[pid], pid, closedUploadedByProcess, closedDownloadedByProcess,
          processNames, processFirstObserved)];
      }
    }

    /** The third pass: reactivated processes leave the closed map, and processes that lost their
    last active connection enter it. */
    method RetireProcesses(stillActive: set<uint32>)
      modifies `closedProcessStats
      ensures closedProcessStats ==
        Retired(activeProcessStats, old(closedProcessStats), stillActive, closedUploadedByProcess,
          closedDownloadedByProcess)
    {
      hide Retire, Retired;
      ghost var was := closedProcessStats;
      closedProcessStats := closedProcessStats - stillActive;
      var pids := activeProcessStats.Keys;
      ghost var up, down, none := closedUploadedByProcess, closedDownloadedByProcess, activeProcessStats - pids;
      NothingRetired(none, was, stillActive, up, down);
      while pids != {}
        invariant pids <= activeProcessStats.Keys
        invariant closedProcessStats == Retired(activeProcessStats - pids, was, stillActive, up, down)
      {
        var pid :| pid in pids;
        RetiredNext(activeProcessStats, pids, pid, was, stillActive, up, down);
        pids := pids - {pid};
        if pid !in stillActive {
          var previous := activeProcessStats[pid];
          closedProcessStats := closedProcessStats[pid := ProcessBandwidthStats(pid, previous.processName,
            Retire(previous.totals, pid, closedUploadedByProcess, closedDownloadedByProcess))];
        }
      }
      assert activeProcessStats - {} == activeProcessStats;
    }

    /** The last pass: publish the aggregates, and store their names and start times. */
    method PublishProcesses(folded: map<uint32, Partial>)
      modifies `activeProcessStats, `processNames, `processFirstObserved
      ensures activeProcessStats.Keys == folded.Keys
      ensures forall pid | pid in folded ::
        activeProcessStats[pid] == ProcessBandwidthStats(pid, folded[pid].processName, ToTotals(folded[pid]))
      ensures processNames == Titled(old(processNames), folded, {})
      ensures processFirstObserved == Improved(old(processFirstObserved), folded, {})
    {
      hide ToTotals, Improved, Titled;
      activeProcessStats := map[];
      var pids := folded.Keys;
      NothingTitled(processNames, folded);
      NothingImproved(processFirstObserved, folded);
      while pids != {}
        invariant pids <= folded.Keys
        invariant activeProcessStats.Keys == folded.Keys - pids
        invariant forall pid | pid in activeProcessStats ::
          activeProcessStats[pid] == ProcessBandwidthStats(pid, folded[pid].processName, ToTotals(folded[pid]))
        invariant processNames == Titled(old(processNames), folded, pids)
        invariant processFirstObserved == Improved(old(processFirstObserved), folded, pids)
      {
        var pid :| pid in pids;
        TitledNext(old(processNames), folded, pids, pid);
        ImprovedNext(old(processFirstObserved), folded, pids, pid);
        pids := pids - {pid};
        var agg := folded[pid];
        processNames := processNames[pid := agg.processName];
        if agg.hasFirst {
          if pid !in processFirstObserved || agg.firstObserved < processFirstObserved[pid] {
            processFirstObserved := processFirstObserved[pid := agg.firstObserved];
          }
        }
        activeProcessStats := activeProcessStats[pid := ProcessBandwidthStats(pid, agg.processName, ToTotals(agg))];
      }
    }

    /** `rebuildProcessStats`, called once the connection maps are up to date. */
    method RebuildProcessStats()
      requires trace != Start && activeTransfers == Active(trace) && processFirstObserved == FirstSeen(trace)
      requires closedUploadedByProcess == Closed(trace, Upload) && closedDownloadedByProcess == Closed(trace, Download)
      requires TotalsOf(activeProcessStats) == ActiveProcesses(trace.before) &&
        Labelled(activeProcessStats, trace.before)
      requires TotalsOf(closedProcessStats) == ClosedProcesses(trace.before) &&
        Labelled(closedProcessStats, trace.before)
      requires NamesStored(processNames, trace)
      modifies `processNames, `processFirstObserved, `activeProcessStats, `closedProcessStats
      ensures TotalsOf(activeProcessStats) == ActiveProcesses(trace) && Labelled(activeProcessStats, trace)
      ensures NamedByConnections(activeProcessStats, trace)
      ensures TotalsOf(closedProcessStats) == ClosedProcesses(trace) && Labelled(closedProcessStats, trace)
      ensures NamesStored(processNames, trace) && processFirstObserved == FirstSeen(trace)
    {
      hide Active, Closed, FirstSeen, ActiveProcesses, ClosedProcesses, KnownNames, Accumulated, WithClosed, ToTotals,
        Retired, Fits, Titled, Improved, Pids, NamesStored, Labelled, TotalsOf, OwnName, NamedByConnections;
      var aggregates := AggregateActive();
      var folded := FoldClosed(aggregates);
      TransferTheorems.FirstSeenPids(trace);
      forall pid | pid in folded
        ensures pid in ActiveProcesses(trace) && ToTotals(folded[pid]) == ActiveProcesses(trace)[pid]
        ensures pid in FirstSeen(trace) && folded[pid].firstObserved == FirstSeen(trace)[pid]
        ensures Fits(folded[pid].processName, KnownNames(trace, pid))
        ensures OwnName(folded[pid].processName, trace, pid)
      {
        FoldedEntry(trace, aggregates[pid], pid, processNames);
      }
      RetiredTotals(trace, activeProcessStats, closedProcessStats);
      RetiredLabels(trace, activeProcessStats, closedProcessStats);
      PublishedNames(trace, folded, processNames);
      PublishedStarts(processFirstObserved, folded);
      RetireProcesses(aggregates.Keys);
      PublishProcesses(folded);
      PublishedTotals(trace, folded, activeProcessStats);
    }

    /** The connection part of `update`: track the rows, close what is missing, and replace the map. */
    method ReplaceConnections(snapshots: seq<TransferSnapshot>, now: Time)
      requires Valid()
      modifies `seeded, `activeTransfers, `closedConnectionStats, `closedUploadedByProcess, `closedDownloadedByProcess,
        `processNames, `processFirstObserved, `trace
      ensures seeded && trace == Then(old(trace), snapshots, now)
      ensures activeTransfers == Active(trace) && closedConnectionStats == ClosedConnections(trace)
      ensures closedUploadedByProcess == Closed(trace, Upload) && closedDownloadedByProcess == Closed(trace, Download)
      ensures processFirstObserved == FirstSeen(trace) && NamesStored(processNames, trace)
    {
      hide KnownNames, NamesOf, FirstRows, ToConnectionStats, Pids, ActiveProcesses, ClosedProcesses, Active, Closed,
        FirstSeen, ClosedConnections, NextActive, Earliest, Records, Fold, Missed, Gone, Renamed, NamesStored, Labelled,
        NamedByConnections, TotalsOf, StatsOf;
      ghost var next := Then(trace, snapshots, now);
      UnfoldUpdate(next);
      var nextActive := TrackRows(snapshots, now);
      ghost var tracked := processNames;
      if seeded {
        CloseMissing(nextActive);
        SeededClosing(next);
      } else {
        SeedingClosesNothing(next, processNames);
      }
      NamesAfterUpdate(next, old(processNames), tracked, processNames);
      activeTransfers := nextActive;
      seeded := true;
      trace := next;
    }

    /** One call of `update`.  Together with `Valid` this determines every field but the choice of
    names; the results list the active connections in map order. */
    method Update(snapshots: seq<TransferSnapshot>, now: Time)
      returns (results: seq<ConnectionBandwidthStats>, ghost order: seq<string>)
      requires Valid()
      modifies this
      ensures Valid() && trace == Then(old(trace), snapshots, now)
      ensures Enumerates(order, activeTransfers.Keys) && |results| == |order|
      ensures forall i | 0 <= i < |order| ::
        order[i] in activeTransfers && results[i] == ToConnectionStats(activeTransfers[order[i]], true)
      ensures forall i | 0 <= i < |order| :: TransferRecords.TellsRunning(results[i], trace, order[i])
    {
      hide KnownNames, NamesOf, FirstRows, ToConnectionStats, Pids, ActiveProcesses, ClosedProcesses, Active, Closed,
        FirstSeen, ClosedConnections, NamesStored, Labelled, NamedByConnections, TotalsOf, StatsOf,
        TransferRecords.TellsRunning;
      ReplaceConnections(snapshots, now);
      results, order := PublishConnections();
      RebuildProcessStats();
      TransferRecords.PublishedTells(trace);
    }

    method GetProcessBandwidthStats() returns (results: seq<ProcessBandwidthStats>)
      requires Valid()
      ensures Ascending(results)
      ensures forall s :: s in results <==> s.processId in activeProcessStats && s == activeProcessStats[s.processId]
    {
      results := SortedByPid(activeProcessStats);
    }
  }

  /** The entries of a process map in ascending PID order, each once; the sort is an insertion. */
  method SortedByPid(stats: map<uint32, ProcessBandwidthStats>) returns (results: seq<ProcessBandwidthStats>)
    requires forall pid | pid in stats :: stats[pid].processId == pid
    ensures Ascending(results)
    ensures forall s :: s in results <==> s.processId in stats && s == stats[s.processId]
  {
    hide InsertByPid;
    results := [];
    var pids := stats.Keys;
    while pids != {}
      invariant pids <= stats.Keys
      invariant Ascending(results)
      invariant forall s :: s in results <==> s.processId in stats.Keys - pids && s == stats[s.processId]
    {
      var pid :| pid in pids;
      pids := pids - {pid};
      InsertedByPid(results, stats[pid]);
      results := InsertByPid(results, stats[pid]);
    }
  }

  ghost predicate Ascending(results: seq<ProcessBandwidthStats>) {
    forall i, j | 0 <= i < j < |results| :: results[i].processId < results[j].processId
  }

  function InsertByPid(results: seq<ProcessBandwidthStats>, stats: ProcessBandwidthStats): seq<ProcessBandwidthStats> {
    if results == [] || stats.processId < results[0].processId then [stats] + results
    else [results[0]] + InsertByPid(results[1..], stats)
  }

  lemma {:induction false} InsertedMembers(results: seq<ProcessBandwidthStats>, stats: ProcessBandwidthStats)
    ensures forall s :: s in InsertByPid(results, stats) <==> s in results || s == stats
  {
    if results != [] && stats.processId >= results[0].processId {
      InsertedMembers(results[1..], stats);
      assert results == [results[0]] + results[1..];
    }
  }

  lemma {:induction false} AscendingBehind(first: ProcessBandwidthStats, rest: seq<ProcessBandwidthStats>)
    requires Ascending(rest) && forall s | s in rest :: first.processId < s.processId
    ensures Ascending([first] + rest)
  {
    forall j | 0 <= j < |rest| ensures first.processId < rest[j].processId {
      assert rest[j] in rest;
    }
  }

  lemma {:induction false} InsertedByPid(results: seq<ProcessBandwidthStats>, stats: ProcessBandwidthStats)
    requires Ascending(results) && forall s | s in results :: s.processId != stats.processId
    ensures forall s :: s in InsertByPid(results, stats) <==> s in results || s == stats
    ensures Ascending(InsertByPid(results, stats))
  {
    InsertedMembers(results, stats);
    if results != [] {
      var first, rest := results[0], results[1..];
      assert results == [first] + rest;
      forall s | s in rest ensures first.processId < s.processId {
        var j :| 0 <= j < |rest| && rest[j] == s;
        assert results[j + 1] == s;
      }
      hide Ascending;
      RestAscending(results);
      if stats.processId < first.processId {
        AscendingBehind(stats, results);
      } else {
        InsertedMembers(rest, stats);
        InsertedByPid(rest, stats);
        assert first in results;
        AscendingBehind(first, InsertByPid(rest, stats));
      }
    }
  }

  lemma {:induction false} RestAscending(results: seq<ProcessBandwidthStats>)
    requires results != [] && Ascending(results)
    ensures Ascending(results[1..])
  {
  }

  /** The stored start times once all but `pids` of the aggregates were compared with them. */
  ghost function Improved(firstSeen: map<uint32, Time>, folded: map<uint32, Partial>,
      pids: set<uint32>): map<uint32, Time> {
    firstSeen + map pid | pid in folded && pid !in pids && Improves(folded[pid], pid, firstSeen) ::
      folded[pid].firstObserved
  }

  predicate Improves(agg: Partial, pid: uint32, firstSeen: map<uint32, Time>) {
    agg.hasFirst && (pid in firstSeen ==> agg.firstObserved < firstSeen[pid])
  }

  lemma {:induction false} NothingImproved(firstSeen: map<uint32, Time>, folded: map<uint32, Partial>)
    ensures Improved(firstSeen, folded, folded.Keys) == firstSeen
  {
  }

  lemma {:induction false} ImprovedNext(firstSeen: map<uint32, Time>, folded: map<uint32, Partial>, pids: set<uint32>,
      pid: uint32)
    requires pid in pids && pids <= folded.Keys
    ensures var was, agg := Improved(firstSeen, folded, pids), folded[pid];
      Improved(firstSeen, folded, pids - {pid}) ==
      if agg.hasFirst && (pid !in was || agg.firstObserved < was[pid]) then was[pid := agg.firstObserved] else was
  {
  }

  /** The stored names once all but `pids` of the aggregates were stored. */
  ghost function Titled(names: map<uint32, string>, folded: map<uint32, Partial>,
      pids: set<uint32>): map<uint32, string> {
    names + map pid | pid in folded && pid !in pids :: folded[pid].processName
  }

  lemma {:induction false} NothingTitled(names: map<uint32, string>, folded: map<uint32, Partial>)
    ensures Titled(names, folded, folded.Keys) == names
  {
  }

  lemma {:induction false} TitledNext(names: map<uint32, string>, folded: map<uint32, Partial>, pids: set<uint32>,
      pid: uint32)
    requires pid in pids && pids <= folded.Keys
    ensures Titled(names, folded, pids - {pid}) == Titled(names, folded, pids)[pid := folded[pid].processName]
  {
  }
}
