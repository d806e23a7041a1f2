/** What the published records say, read from the snapshots: every field of a connection's record, running
or ended, and the counts, rates and times of a process's entry. */
module TransferRecords {
  import opened Model
  import opened FiniteSums
  import opened TransferAccounting
  import opened TransferTheorems
  import opened Samples

  // ----- Connections

  /** The latest name that a session was seen with. */
  ghost function SessionName(trace: Trace, k: string): string
    requires k in LastRows(trace)
  {
    if LastRows(trace)[k].processName != "" then LastRows(trace)[k].processName
    else if k in PriorRows(trace) then SessionName(trace.before, k)
    else ""
  }

  /** The record tells the session of a key at the latest snapshot: whose it is and where it goes, its
  bytes, its start, and the time of its latest row, by the clock if the row carries none. */
  ghost predicate Tells(r: ConnectionBandwidthStats, trace: Trace, k: string) {
    && k in LastRows(trace)
    && var c := LastRows(trace)[k].connection;
      && r.processId == c.processId && r.processName == SessionName(trace, k)
      && r.remoteAddress == c.remoteAddress && r.remotePort == c.remotePort && r.protocol == c.protocol
      && r.uploadedBytes == Wrap(SessionBytes(trace, k, Upload))
      && r.downloadedBytes == Wrap(SessionBytes(trace, k, Download))
      && r.firstObserved == SessionStart(trace, k)
      && (c.timestamp != EPOCH ==> r.lastUpdated == c.timestamp)
      && (c.timestamp == EPOCH ==> r.lastUpdated == trace.now)
  }

  /** A running session's record shows the rates of its last two rows. */
  ghost predicate TellsRunning(r: ConnectionBandwidthStats, trace: Trace, k: string) {
    && Tells(r, trace, k) && r.isActive
    && r.uploadRate == LastRate(trace, k, Upload) && r.downloadRate == LastRate(trace, k, Download)
  }

  /** An ended session's record shows none. */
  ghost predicate TellsEnded(r: ConnectionBandwidthStats, trace: Trace, k: string) {
    Tells(r, trace, k) && !r.isActive && r.uploadRate == 0.0 && r.downloadRate == 0.0
  }

  lemma {:induction false} ActiveName(trace: Trace, k: string)
    requires k in LastRows(trace)
    ensures k in Active(trace) && Active(trace)[k].processName == SessionName(trace, k)
  {
    hide FirstRows, Wrap, RateOver, Delta;
    ActiveMirrorsSnapshot(trace.before);
    if k in PriorRows(trace) {
      ActiveName(trace.before, k);
    }
  }

  /** The record made of an active entry, published or closed. */
  lemma {:induction false} RecordTells(trace: Trace, k: string)
    requires k in LastRows(trace)
    ensures k in Active(trace)
    ensures TellsRunning(ToConnectionStats(Active(trace)[k], true), trace, k)
    ensures TellsEnded(ToConnectionStats(Active(trace)[k], false), trace, k)
  {
    hide FirstRows, Active, Wrap, LastRate, SessionBytes, SessionStart, SessionName;
    ActiveMirrorsSnapshot(trace);
    ActiveSession(trace, k);
    ActiveName(trace, k);
    ConnectionRate(trace, k, Upload);
    ConnectionRate(trace, k, Download);
  }

  /** What every update publishes. */
  lemma {:induction false} PublishedTells(trace: Trace)
    ensures Active(trace).Keys == LastRows(trace).Keys
    ensures forall k | k in Active(trace) :: TellsRunning(ToConnectionStats(Active(trace)[k], true), trace, k)
  {
    hide FirstRows, Active, TellsRunning, ToConnectionStats;
    ActiveMirrorsSnapshot(trace);
    forall k | k in Active(trace) ensures TellsRunning(ToConnectionStats(Active(trace)[k], true), trace, k) {
      RecordTells(trace, k);
    }
  }

  // ----- Processes

  /** The connections of a process in the latest snapshot. */
  ghost function OwnKeys(trace: Trace, pid: uint32): set<string> {
    set k | k in LastRows(trace) && LastRows(trace)[k].connection.processId == pid
  }

  /** The times of the connections of a process in the latest snapshot. */
  ghost function OwnTimes(trace: Trace, pid: uint32): set<Time> {
    set k | k in OwnKeys(trace, pid) :: LastRows(trace)[k].Stamp(trace.now)
  }

  /** The entry counts the process's connections, adds up their rates, and carries the latest of their
  times, the epoch if all are older. */
  ghost predicate TellsProcess(p: ProcessTotals, trace: Trace, pid: uint32) {
    && trace != Start && OwnKeys(trace, pid) != {}
    && p.activeConnectionCount == |OwnKeys(trace, pid)|
    && p.lastUpdated in OwnTimes(trace, pid) + {EPOCH}
    && (forall t | t in OwnTimes(trace, pid) + {EPOCH} :: t <= p.lastUpdated)
    && p.uploadRate == RealTotal(map k | k in OwnKeys(trace, pid) :: LastRate(trace, k, Upload))
    && p.downloadRate == RealTotal(map k | k in OwnKeys(trace, pid) :: LastRate(trace, k, Download))
  }

  /** What an active process's entry says. */
  lemma {:induction false} ProcessTells(trace: Trace, pid: uint32)
    requires pid in ActiveProcesses(trace)
    ensures TellsProcess(ActiveProcesses(trace)[pid], trace, pid)
  {
    hide FirstRows, Active, ActiveProcesses, CumulativeOf, UpdatesOf, RealTotal, MaxTime, LastRate, OwnTimes, OwnKeys;
    EntryTimes(trace, pid);
    RatesTell(trace, pid, Upload);
    RatesTell(trace, pid, Download);
    OwnEntries(trace, pid);
  }

  /** An entry's count and time, in the tracker's own terms. */
  lemma {:induction false} EntryTimes(trace: Trace, pid: uint32)
    requires pid in ActiveProcesses(trace)
    ensures pid in Pids(Active(trace)) && trace != Start
    ensures var p := ActiveProcesses(trace)[pid];
      && p.activeConnectionCount == |CumulativeOf(Active(trace), pid, Upload)|
      && p.lastUpdated == MaxTime({EPOCH} + UpdatesOf(Active(trace), pid))
  {
    hide FirstRows, NextActive, Closed, FirstSeen, Total, RealTotal, MaxTime, Wrap, CumulativeOf, UpdatesOf, RatesOf;
  }

  lemma {:induction false} OwnEntries(trace: Trace, pid: uint32)
    requires pid in Pids(Active(trace))
    ensures CumulativeOf(Active(trace), pid, Upload).Keys == OwnKeys(trace, pid) != {}
    ensures UpdatesOf(Active(trace), pid) == OwnTimes(trace, pid)
  {
    hide FirstRows, Active;
    ActiveMirrorsSnapshot(trace);
    assert forall k | k in OwnKeys(trace, pid) :: Active(trace)[k].lastUpdated == LastRows(trace)[k].Stamp(trace.now);
    var k :| k in Active(trace) && Active(trace)[k].connection.processId == pid;
    assert k in OwnKeys(trace, pid);
  }

  lemma {:induction false} RatesTell(trace: Trace, pid: uint32, d: Direction)
    requires pid in ActiveProcesses(trace)
    ensures ActiveProcesses(trace)[pid].Rate(d) == RealTotal(map k | k in OwnKeys(trace, pid) :: LastRate(trace, k, d))
  {
    hide FirstRows, Active, ActiveProcesses, RealTotal, LastRate;
    ProcessRate(trace, pid, d);
    assert (map k | k in OwnKeys(trace, pid) :: LastRate(trace, k, d)) ==
      map k | k in LastRows(trace) && LastRows(trace)[k].connection.processId == pid :: LastRate(trace, k, d);
  }

  // ----- After the end

  /** The snapshot of `v` ended a session of the key. */
  ghost predicate EndedAt(v: Trace, t: Trace, k: string) {
    Within(v, t) && v != Start && k in LastRows(v.before) && k !in LastRows(v)
  }

  /** A key has a closed record exactly if a session of it ended, and the record tells the last one that
  did, as it was when it ended. */
  lemma {:induction false} ClosedTells(t: Trace, k: string)
    ensures k in ClosedConnections(t) <==> exists v :: EndedAt(v, t, k)
    ensures k in ClosedConnections(t) ==> exists v ::
      && EndedAt(v, t, k) && TellsEnded(ClosedConnections(t)[k], v.before, k)
      && forall w | EndedAt(w, t, k) :: Length(w) <= Length(v)
  {
    hide FirstRows, ClosedConnections, TellsEnded;
    if k in ClosedConnections(t) {
      var v := LastEnd(t, k);
    }
    if v :| EndedAt(v, t, k) {
      EndIsRecorded(v, t, k);
    }
  }

  lemma {:induction false} RecordsStep(t: Trace, k: string)
    requires t != Start
    ensures k in ClosedConnections(t) <==> k in ClosedConnections(t.before) || EndedAt(t, t, k)
    ensures EndedAt(t, t, k) ==> TellsEnded(ClosedConnections(t)[k], t.before, k)
    ensures k in ClosedConnections(t) && !EndedAt(t, t, k) ==>
      ClosedConnections(t)[k] == ClosedConnections(t.before)[k]
  {
    hide FirstRows, Active, TellsEnded, ToConnectionStats;
    ActiveMirrorsSnapshot(t.before);
    if EndedAt(t, t, k) {
      RecordTells(t.before, k);
    }
  }

  lemma {:induction false} LastEnd(t: Trace, k: string) returns (v: Trace)
    requires k in ClosedConnections(t)
    ensures EndedAt(v, t, k) && TellsEnded(ClosedConnections(t)[k], v.before, k)
    ensures forall w | EndedAt(w, t, k) :: Length(w) <= Length(v)
  {
    hide FirstRows, TellsEnded, Records;
    RecordsStep(t, k);
    if EndedAt(t, t, k) {
      v := t;
      forall w | EndedAt(w, t, k) ensures Length(w) <= Length(v) {
        WithinLength(w, t);
      }
    } else {
      v := LastEnd(t.before, k);
      assert forall w | EndedAt(w, t, k) :: EndedAt(w, t.before, k);
    }
  }

  lemma {:induction false} EndIsRecorded(v: Trace, t: Trace, k: string)
    requires EndedAt(v, t, k)
    ensures k in ClosedConnections(t)
    decreases t
  {
    hide FirstRows, ClosedConnections, TellsEnded;
    RecordsStep(t, k);
    if v != t {
      EndIsRecorded(v, t.before, k);
    }
  }

  /** A closed process shows no rates and no connections, and the times of the entry it had when it lost
  its last connection, at `v`. */
  ghost predicate TellsClosedProcess(p: ProcessTotals, v: Trace, pid: uint32) {
    && v != Start && pid in ActiveProcesses(v.before) && OwnKeys(v, pid) == {}
    && p.uploadRate == 0.0 && p.downloadRate == 0.0 && p.activeConnectionCount == 0
    && p.firstObserved == ActiveProcesses(v.before)[pid].firstObserved
    && p.lastUpdated == ActiveProcesses(v.before)[pid].lastUpdated
  }

  /** What a closed process's entry says: it had no connection since. */
  lemma {:induction false} ClosedProcessTells(t: Trace, pid: uint32) returns (v: Trace)
    requires pid in ClosedProcesses(t)
    ensures Within(v, t) && TellsClosedProcess(ClosedProcesses(t)[pid], v, pid)
    ensures forall w | Within(w, t) && Length(w) >= Length(v) :: OwnKeys(w, pid) == {}
  {
    hide FirstRows, Active, ActiveProcesses, OwnKeys, TellsClosedProcess;
    ClosedStep(t, pid);
    if pid in ActiveProcesses(t.before) {
      v := t;
      forall w | Within(w, t) && Length(w) >= Length(v) ensures OwnKeys(w, pid) == {} {
        WithinLength(w, t);
      }
    } else {
      v := ClosedProcessTells(t.before, pid);
      forall w | Within(w, t) && Length(w) >= Length(v) ensures OwnKeys(w, pid) == {} {
        if w != t {
          assert Within(w, t.before);
        }
      }
    }
  }

  lemma {:induction false} ClosedStep(t: Trace, pid: uint32)
    requires pid in ClosedProcesses(t)
    ensures t != Start && OwnKeys(t, pid) == {}
    ensures if pid in ActiveProcesses(t.before) then TellsClosedProcess(ClosedProcesses(t)[pid], t, pid)
      else pid in ClosedProcesses(t.before) && ClosedProcesses(t)[pid] == ClosedProcesses(t.before)[pid]
  {
    hide FirstRows, Active, ActiveProcesses, Closed;
    ConnectedPids(t, pid);
  }

  lemma {:induction false} ConnectedPids(t: Trace, pid: uint32)
    ensures OwnKeys(t, pid) != {} <==> pid in Pids(Active(t))
  {
    hide FirstRows, Active;
    ActiveMirrorsSnapshot(t);
    if pid in Pids(Active(t)) {
      OwnEntries(t, pid);
    }
    if k :| k in OwnKeys(t, pid) {
      assert Active(t)[k].connection.processId == pid;
    }
  }
}
