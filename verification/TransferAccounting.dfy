/** The transfer accounting of TransferRateTracker as a state machine over snapshots, and what it
computes over whole runs.  Class TransferRateTracker is proved against `Step`; everything here
is about `Run`, the state after any sequence of updates since construction or `reset`. */
module TransferAccounting {
  import opened Model
  import IdentityKey
  import opened FiniteSums

  /** The calls of `update` since construction or `reset`, latest outermost: each with its snapshot
  rows and its clock reading. */
  datatype Trace = Start | Then(before: Trace, snapshots: seq<TransferSnapshot>, now: Time)

  /** The deduplicated snapshot: of the rows with one key the first counts. */
  function FirstRows(rows: seq<TransferSnapshot>): map<string, TransferSnapshot> {
    if rows == [] then map[] else
      var m := FirstRows(rows[..|rows| - 1]);
      var row := rows[|rows| - 1];
      var k := IdentityKey.Key(row.connection);
      if k in m then m else m[k := row]
  }

  lemma {:induction false} FirstRowsKeyed(rows: seq<TransferSnapshot>, k: string)
    requires k in FirstRows(rows)
    ensures IdentityKey.Key(FirstRows(rows)[k].connection) == k && FirstRows(rows)[k] in rows
  {
    var front := rows[..|rows| - 1];
    if k in FirstRows(front) {
      FirstRowsKeyed(front, k);
    }
  }

  lemma {:induction false} FirstRowsAreFirst(rows: seq<TransferSnapshot>, i: nat)
    requires i < |rows|
    requires forall j | 0 <= j < i :: IdentityKey.Key(rows[j].connection) != IdentityKey.Key(rows[i].connection)
    ensures var k := IdentityKey.Key(rows[i].connection); k in FirstRows(rows) && FirstRows(rows)[k] == rows[i]
  {
    var front := rows[..|rows| - 1];
    var k := IdentityKey.Key(rows[i].connection);
    if i < |rows| - 1 {
      FirstRowsAreFirst(front, i);
    } else if k in FirstRows(front) {
      FirstRowsKeyed(front, k);
    }
  }

  // ----- One connection

  datatype TrackedTransfer = TrackedTransfer(
    connection: Connection,
    processName: string,
    baselineBytesSent: uint64,
    baselineBytesReceived: uint64,
    cumulativeUploaded: uint64,
    cumulativeDownloaded: uint64,
    uploadRate: real,
    downloadRate: real,
    firstObserved: Time,
    lastUpdated: Time)
  {
    function Baseline(d: Direction): uint64 {
      if d == Upload then baselineBytesSent else baselineBytesReceived
    }
    function Cumulative(d: Direction): uint64 {
      if d == Upload then cumulativeUploaded else cumulativeDownloaded
    }
    function Rate(d: Direction): real {
      if d == Upload then uploadRate else downloadRate
    }
  }

  datatype ConnectionBandwidthStats = ConnectionBandwidthStats(
    processId: uint32,
    processName: string,
    remoteAddress: string,
    remotePort: uint16,
    protocol: Protocol,
    uploadedBytes: uint64,
    downloadedBytes: uint64,
    uploadRate: real,
    downloadRate: real,
    firstObserved: Time,
    lastUpdated: Time,
    isActive: bool)

  function ToConnectionStats(t: TrackedTransfer, isActive: bool): ConnectionBandwidthStats {
    ConnectionBandwidthStats(
      t.connection.processId, t.processName, t.connection.remoteAddress, t.connection.remotePort,
      t.connection.protocol, t.cumulativeUploaded, t.cumulativeDownloaded,
      if isActive then t.uploadRate else 0.0, if isActive then t.downloadRate else 0.0,
      t.firstObserved, t.lastUpdated, isActive)
  }

  /** A counter that went down was reset: only what it shows after the reset is fresh progress. */
  function Delta(previous: uint64, current: uint64): uint64 {
    if current >= previous then current - previous else current
  }

  const MIN_ELAPSED: real := 0.000000001

  function RateOver(delta: uint64, elapsed: real): real {
    if elapsed <= MIN_ELAPSED then 0.0 else delta as real / elapsed
  }

  function Track(active: map<string, TrackedTransfer>, seeded: bool, k: string, row: TransferSnapshot,
      now: Time): TrackedTransfer {
    var last := row.Stamp(now);
    if k in active then
      var was := active[k];
      var up := if seeded then Delta(was.baselineBytesSent, row.bytesSent) else 0;
      var down := if seeded then Delta(was.baselineBytesReceived, row.bytesReceived) else 0;
      TrackedTransfer(
        row.connection, if row.processName == "" then was.processName else row.processName,
        row.bytesSent, row.bytesReceived,
        Wrap(was.cumulativeUploaded + up), Wrap(was.cumulativeDownloaded + down),
        if seeded then RateOver(up, last - was.lastUpdated) else 0.0,
        if seeded then RateOver(down, last - was.lastUpdated) else 0.0,
        was.firstObserved, last)
    else
      TrackedTransfer(
        row.connection, row.processName, row.bytesSent, row.bytesReceived, 0, 0, 0.0, 0.0, last, last)
  }

  // ----- One process

  /** A process's aggregate; its name is treated separately, because the code picks it in map order. */
  datatype ProcessTotals = ProcessTotals(
    uploadedBytes: uint64,
    downloadedBytes: uint64,
    uploadRate: real,
    downloadRate: real,
    firstObserved: Time,
    lastUpdated: Time,
    activeConnectionCount: nat)
  {
    function Bytes(d: Direction): uint64 {
      if d == Upload then uploadedBytes else downloadedBytes
    }
    function Rate(d: Direction): real {
      if d == Upload then uploadRate else downloadRate
    }
  }

  ghost function Pids(active: map<string, TrackedTransfer>): set<uint32> {
    set k | k in active :: active[k].connection.processId
  }

  ghost function CumulativeOf(active: map<string, TrackedTransfer>, pid: uint32, d: Direction): map<string, nat> {
    map k | k in active && active[k].connection.processId == pid :: active[k].Cumulative(d)
  }

  ghost function RatesOf(active: map<string, TrackedTransfer>, pid: uint32, d: Direction): map<string, real> {
    map k | k in active && active[k].connection.processId == pid :: active[k].Rate(d)
  }

  ghost function StartsOf(active: map<string, TrackedTransfer>, pid: uint32): (starts: set<Time>)
    ensures pid in Pids(active) ==> starts != {}
  {
    var starts := set k | k in active && active[k].connection.processId == pid :: active[k].firstObserved;
    assert pid in Pids(active) ==> starts != {} by {
      if pid in Pids(active) {
        var k :| k in active && active[k].connection.processId == pid;
        assert active[k].firstObserved in starts;
      }
    }
    starts
  }

  ghost function UpdatesOf(active: map<string, TrackedTransfer>, pid: uint32): set<Time> {
    set k | k in active && active[k].connection.processId == pid :: active[k].lastUpdated
  }

  function GetOrZero(m: map<uint32, uint64>, pid: uint32): uint64 {
    if pid in m then m[pid] else 0
  }

  // ----- The trace

  function LastRows(trace: Trace): map<string, TransferSnapshot> {
    if trace == Start then map[] else FirstRows(trace.snapshots)
  }

  function PriorRows(trace: Trace): map<string, TransferSnapshot> {
    if trace == Start then map[] else LastRows(trace.before)
  }

  // ----- The tracker's maps after a trace

  /** activeTransfers_. */
  ghost function Active(trace: Trace): map<string, TrackedTransfer> {
    if trace == Start then map[] else
      NextActive(Active(trace.before), trace.before != Start, LastRows(trace), trace.now)
  }

  ghost function NextActive(active: map<string, TrackedTransfer>, seeded: bool, rows: map<string, TransferSnapshot>,
      now: Time): map<string, TrackedTransfer> {
    map k | k in rows :: Track(active, seeded, k, rows[k], now)
  }

  /** The sessions the last update closed; the seeding update closes nothing. */
  ghost function Gone(trace: Trace): map<string, TrackedTransfer> {
    if trace == Start then map[] else Missing(Active(trace.before), trace.before != Start, LastRows(trace))
  }

  ghost function Missing(active: map<string, TrackedTransfer>, seeded: bool,
      rows: map<string, TransferSnapshot>): map<string, TrackedTransfer> {
    map k | k in active && seeded && k !in rows :: active[k]
  }

  /** closedConnectionStats_: a key that closes again overwrites its older record. */
  ghost function ClosedConnections(trace: Trace): map<string, ConnectionBandwidthStats> {
    if trace == Start then map[] else
      ClosedConnections(trace.before) + Records(Gone(trace))
  }

  ghost function Records(gone: map<string, TrackedTransfer>): map<string, ConnectionBandwidthStats> {
    map k | k in gone :: ToConnectionStats(gone[k], false)
  }

  /** closedUploadedByProcess_ and closedDownloadedByProcess_. */
  ghost function Closed(trace: Trace, d: Direction): map<uint32, uint64> {
    if trace == Start then map[] else Fold(Closed(trace.before, d), Gone(trace), d)
  }

  ghost function Fold(closed: map<uint32, uint64>, gone: map<string, TrackedTransfer>,
      d: Direction): map<uint32, uint64> {
    map pid | pid in closed.Keys + Pids(gone) :: Wrap(GetOrZero(closed, pid) + Total(CumulativeOf(gone, pid, d)))
  }

  /** processFirstObserved_. */
  ghost function FirstSeen(trace: Trace): map<uint32, Time> {
    if trace == Start then map[] else Earliest(FirstSeen(trace.before), Active(trace))
  }

  ghost function Earliest(firstSeen: map<uint32, Time>, active: map<string, TrackedTransfer>): map<uint32, Time> {
    map pid | pid in firstSeen.Keys + Pids(active) ::
      MinTime((if pid in firstSeen then {firstSeen[pid]} else {}) + StartsOf(active, pid))
  }

  /** activeProcessStats_, up to process names. */
  ghost function ActiveProcesses(trace: Trace): map<uint32, ProcessTotals> {
    map pid | pid in Pids(Active(trace)) && pid in FirstSeen(trace) ::
      Aggregate(Active(trace), pid, GetOrZero(Closed(trace, Upload), pid), GetOrZero(Closed(trace, Download), pid),
        FirstSeen(trace)[pid])
  }

  ghost function Aggregate(active: map<string, TrackedTransfer>, pid: uint32, closedUploaded: uint64,
      closedDownloaded: uint64, firstSeen: Time): ProcessTotals {
    ProcessTotals(
      Wrap(Total(CumulativeOf(active, pid, Upload)) + closedUploaded),
      Wrap(Total(CumulativeOf(active, pid, Download)) + closedDownloaded),
      RealTotal(RatesOf(active, pid, Upload)),
      RealTotal(RatesOf(active, pid, Download)),
      firstSeen,
      MaxTime({EPOCH} + UpdatesOf(active, pid)),
      |CumulativeOf(active, pid, Upload)|)
  }

  /** closedProcessStats_, up to process names. */
  ghost function ClosedProcesses(trace: Trace): map<uint32, ProcessTotals> {
    if trace == Start then map[] else
      var active, closed := ActiveProcesses(trace.before), ClosedProcesses(trace.before);
      map pid | pid in (active.Keys + closed.Keys) - Pids(Active(trace)) ::
        if pid in active then Retire(active[pid], pid, Closed(trace, Upload), Closed(trace, Download)) else closed[pid]
  }

  /** The entry of a process that lost its last connection: the closed totals, with the previously
  reported ones as the code's fallback. */
  function Retire(previous: ProcessTotals, pid: uint32, closedUploaded: map<uint32, uint64>,
      closedDownloaded: map<uint32, uint64>): ProcessTotals {
    ProcessTotals(
      if pid in closedUploaded then closedUploaded[pid] else previous.uploadedBytes,
      if pid in closedDownloaded then closedDownloaded[pid] else previous.downloadedBytes,
      0.0, 0.0, previous.firstObserved, previous.lastUpdated, 0)
  }

  /** What a caller reads for a process, in the active or the closed map. */
  ghost function Reported(trace: Trace, pid: uint32, d: Direction): uint64 {
    if pid in ActiveProcesses(trace) then ActiveProcesses(trace)[pid].Bytes(d)
    else if pid in ClosedProcesses(trace) then ClosedProcesses(trace)[pid].Bytes(d)
    else 0
  }

  // ----- The same trace, read without the tracker

  /** The deltas of one process between two consecutive deduplicated snapshots. */
  ghost function StepDeltas(prior: map<string, TransferSnapshot>, last: map<string, TransferSnapshot>, pid: uint32,
      d: Direction): map<string, nat> {
    map k | k in prior && k in last && last[k].connection.processId == pid :: Delta(prior[k].Bytes(d), last[k].Bytes(d))
  }

  /** What a process transferred over a trace: the deltas of its keys over consecutive snapshots. */
  ghost function TraceBytes(trace: Trace, pid: uint32, d: Direction): nat {
    if trace == Start then 0
    else TraceBytes(trace.before, pid, d) + Total(StepDeltas(PriorRows(trace), LastRows(trace), pid, d))
  }

  /** What the current session of a key transferred. */
  ghost function SessionBytes(trace: Trace, k: string, d: Direction): nat
  {
    if trace == Start || k !in PriorRows(trace) || k !in LastRows(trace) then 0
    else SessionBytes(trace.before, k, d) + Delta(PriorRows(trace)[k].Bytes(d), LastRows(trace)[k].Bytes(d))
  }

  /** When the current session of a key started. */
  ghost function SessionStart(trace: Trace, k: string): Time
    requires k in LastRows(trace)
  {
    if k in PriorRows(trace) then SessionStart(trace.before, k)
    else LastRows(trace)[k].Stamp(trace.now)
  }

  /** The start times of the sessions of a process that the last snapshot opened. */
  ghost function Opened(trace: Trace, pid: uint32): set<Time>
    requires trace != Start
  {
    set k | k in LastRows(trace) && k !in PriorRows(trace) && LastRows(trace)[k].connection.processId == pid ::
      LastRows(trace)[k].Stamp(trace.now)
  }

  /** The start times of all sessions a process ever had. */
  ghost function SessionStarts(trace: Trace, pid: uint32): set<Time> {
    if trace == Start then {} else SessionStarts(trace.before, pid) + Opened(trace, pid)
  }

  ghost function PidsIn(rows: map<string, TransferSnapshot>): set<uint32> {
    set k | k in rows :: rows[k].connection.processId
  }

  ghost function SeenPids(trace: Trace): set<uint32> {
    if trace == Start then {} else SeenPids(trace.before) + PidsIn(LastRows(trace))
  }

  // ----- Connections over a run

  /** A key that persists keeps its owner, whatever the addresses contain. */
  lemma {:induction false} PriorOwner(trace: Trace, k: string)
    requires k in PriorRows(trace) && k in LastRows(trace)
    ensures PriorRows(trace)[k].connection.processId == LastRows(trace)[k].connection.processId
  {
    FirstRowsKeyed(trace.snapshots, k);
    FirstRowsKeyed(trace.before.snapshots, k);
    IdentityKey.KeyDeterminesOwner(PriorRows(trace)[k].connection, LastRows(trace)[k].connection);
  }

  /** The active map holds exactly the keys of the latest snapshot, with its connections, counters
  and times. */
  lemma {:induction false} ActiveMirrorsSnapshot(trace: Trace)
    ensures var active, rows := Active(trace), LastRows(trace);
      && active.Keys == rows.Keys
      && Pids(active) == PidsIn(rows)
      && forall k | k in rows ::
        && active[k].connection == rows[k].connection
        && active[k].baselineBytesSent == rows[k].bytesSent
        && active[k].baselineBytesReceived == rows[k].bytesReceived
        && trace != Start && active[k].lastUpdated == rows[k].Stamp(trace.now)
  {
  }
}
