/** What TransferRateTracker's nine maps hold after any sequence of updates. */
module TransferTheorems {
  import opened Model
  import opened FiniteSums
  import opened TransferAccounting

  // ----- Sessions

  /** An active entry accumulates the deltas of its current session and keeps the session's start. */
  lemma {:induction false} ActiveSession(trace: Trace, k: string)
    requires k in LastRows(trace)
    ensures var active := Active(trace);
      && k in active
      && active[k].cumulativeUploaded == Wrap(SessionBytes(trace, k, Upload))
      && active[k].cumulativeDownloaded == Wrap(SessionBytes(trace, k, Download))
      && active[k].firstObserved == SessionStart(trace, k)
  {
    hide Wrap, FirstRows;
    WrapSmall(0);
    ActiveMirrorsSnapshot(trace.before);
    if k in PriorRows(trace) {
      ActiveSession(trace.before, k);
      WrapAdd(SessionBytes(trace.before, k, Upload),
        Delta(PriorRows(trace)[k].bytesSent, LastRows(trace)[k].bytesSent));
      WrapAdd(SessionBytes(trace.before, k, Download),
        Delta(PriorRows(trace)[k].bytesReceived, LastRows(trace)[k].bytesReceived));
    }
  }

  // ----- Conservation

  /** The bytes of a process's current sessions. */
  ghost function SessionsOf(trace: Trace, pid: uint32, d: Direction): map<string, nat> {
    map k | k in LastRows(trace) && LastRows(trace)[k].connection.processId == pid :: SessionBytes(trace, k, d)
  }

  /** The bytes of the sessions that the last snapshot ended. */
  ghost function EndedOf(trace: Trace, pid: uint32, d: Direction): map<string, nat>
    requires trace != Start
  {
    map k | k in PriorRows(trace) && k !in LastRows(trace) && PriorRows(trace)[k].connection.processId == pid ::
      SessionBytes(trace.before, k, d)
  }

  /** The bytes of all sessions a process ever ended. */
  ghost function EndedBytes(trace: Trace, pid: uint32, d: Direction): nat {
    if trace == Start then 0 else EndedBytes(trace.before, pid, d) + Total(EndedOf(trace, pid, d))
  }

  /** Every byte of the trace total belongs to exactly one session, running or ended, however often
  the connections of a process closed and reopened. */
  lemma {:induction false} Conservation(trace: Trace, pid: uint32, d: Direction)
    ensures Total(SessionsOf(trace, pid, d)) + EndedBytes(trace, pid, d) == TraceBytes(trace, pid, d)
  {
    if trace == Start {
      TotalZero(SessionsOf(trace, pid, d));
    } else {
      Conservation(trace.before, pid, d);
      forall k | k in PriorRows(trace) && k in LastRows(trace)
        ensures PriorRows(trace)[k].connection.processId == LastRows(trace)[k].connection.processId
      {
        PriorOwner(trace, k);
      }
      Rebook(SessionsOf(trace.before, pid, d), SessionsOf(trace, pid, d), EndedOf(trace, pid, d),
        StepDeltas(PriorRows(trace), LastRows(trace), pid, d));
    }
  }

  /** The tracker's 64-bit sums hold these totals modulo 2^64. */
  lemma {:induction false} ActiveSums(trace: Trace, pid: uint32, d: Direction)
    ensures Wrap(Total(CumulativeOf(Active(trace), pid, d))) == Wrap(Total(SessionsOf(trace, pid, d)))
  {
    hide Wrap, Total;
    ActiveMirrorsSnapshot(trace);
    forall k | k in LastRows(trace)
      ensures Active(trace)[k].Cumulative(d) == Wrap(SessionBytes(trace, k, d))
    {
      ActiveSession(trace, k);
    }
    TotalCongruent(SessionsOf(trace, pid, d), CumulativeOf(Active(trace), pid, d));
  }

  lemma {:induction false} GoneSums(trace: Trace, pid: uint32, d: Direction)
    requires trace != Start
    ensures Wrap(Total(CumulativeOf(Gone(trace), pid, d))) == Wrap(Total(EndedOf(trace, pid, d)))
  {
    hide Wrap, Total;
    ActiveMirrorsSnapshot(trace.before);
    forall k | k in PriorRows(trace)
      ensures Active(trace.before)[k].Cumulative(d) == Wrap(SessionBytes(trace.before, k, d))
    {
      ActiveSession(trace.before, k);
    }
    TotalCongruent(EndedOf(trace, pid, d), CumulativeOf(Gone(trace), pid, d));
  }

  lemma {:induction false} ClosedSums(trace: Trace, pid: uint32, d: Direction)
    ensures GetOrZero(Closed(trace, d), pid) == Wrap(EndedBytes(trace, pid, d))
  {
    hide Wrap, Total, Fold, CumulativeOf, EndedOf, Gone;
    WrapSmall(0);
    if trace != Start {
      ClosedSums(trace.before, pid, d);
      FoldAt(Closed(trace.before, d), Gone(trace), pid, d);
      GoneSums(trace, pid, d);
      WrapSum(EndedBytes(trace.before, pid, d), Total(CumulativeOf(Gone(trace), pid, d)),
        Total(EndedOf(trace, pid, d)));
    }
  }

  lemma {:induction false} FoldAt(closed: map<uint32, uint64>, gone: map<string, TrackedTransfer>, pid: uint32,
      d: Direction)
    ensures GetOrZero(Fold(closed, gone, d), pid) == Wrap(GetOrZero(closed, pid) + Total(CumulativeOf(gone, pid, d)))
  {
    hide Wrap, Total;
    if pid !in closed.Keys + Pids(gone) {
      TotalZero(CumulativeOf(gone, pid, d));
      WrapSmall(GetOrZero(closed, pid));
    }
  }

  // ----- Processes

  /** Whenever a process loses its last connection, that connection was folded into the
  accumulators in the same step: the fallback to the previously reported bytes is never taken. */
  lemma {:induction false} FallbackUnreachable(trace: Trace, pid: uint32, d: Direction)
    requires trace != Start && pid in Pids(Active(trace.before)) && pid !in Pids(Active(trace))
    ensures pid in Pids(Gone(trace)) && pid in Closed(trace, d)
  {
    hide FirstRows, Wrap, Total, Track;
    ActiveMirrorsSnapshot(trace.before);
    ActiveMirrorsSnapshot(trace);
    var k :| k in Active(trace.before) && Active(trace.before)[k].connection.processId == pid;
    if k in LastRows(trace) {
      PriorOwner(trace, k);
    }
    assert k in Gone(trace) && Gone(trace)[k].connection.processId == pid;
  }

  /** A process without active connections contributes nothing to what the next update closes. */
  lemma {:induction false} InactiveKeepsClosed(trace: Trace, pid: uint32, d: Direction)
    requires trace != Start && pid !in Pids(Active(trace.before))
    ensures pid in Closed(trace, d) <==> pid in Closed(trace.before, d)
    ensures GetOrZero(Closed(trace, d), pid) == GetOrZero(Closed(trace.before, d), pid)
  {
    hide FirstRows, Active, Closed, Wrap, Total, CumulativeOf;
    UnfoldClosed(trace, d);
    assert pid !in Pids(Gone(trace));
    FoldAt(Closed(trace.before, d), Gone(trace), pid, d);
    NothingOwned(Gone(trace), pid, d);
    WrapSmall(GetOrZero(Closed(trace.before, d), pid));
  }

  lemma {:induction false} UnfoldClosed(trace: Trace, d: Direction)
    requires trace != Start
    ensures Closed(trace, d) == Fold(Closed(trace.before, d), Gone(trace), d)
  {
  }

  lemma {:induction false} NothingOwned(active: map<string, TrackedTransfer>, pid: uint32, d: Direction)
    requires pid !in Pids(active)
    ensures Total(CumulativeOf(active, pid, d)) == 0
  {
    TotalZero(CumulativeOf(active, pid, d));
  }

  lemma {:induction false} FirstSeenPids(trace: Trace)
    ensures FirstSeen(trace).Keys == SeenPids(trace)
    ensures ActiveProcesses(trace).Keys == Pids(Active(trace)) <= SeenPids(trace)
  {
    hide FirstRows, Track, Aggregate;
    if trace != Start {
      FirstSeenPids(trace.before);
      ActiveMirrorsSnapshot(trace);
    }
  }

  /** The active and closed process maps are disjoint and together hold every process seen since
  the reset; the active ones own the active connections. */
  lemma {:induction false} ProcessPartition(trace: Trace)
    ensures ActiveProcesses(trace).Keys == Pids(Active(trace)) == PidsIn(LastRows(trace))
    ensures ActiveProcesses(trace).Keys !! ClosedProcesses(trace).Keys
    ensures ActiveProcesses(trace).Keys + ClosedProcesses(trace).Keys == SeenPids(trace)
  {
    hide FirstRows, Track, Aggregate, Retire;
    FirstSeenPids(trace);
    ActiveMirrorsSnapshot(trace);
    if trace != Start {
      ProcessPartition(trace.before);
    }
  }

  /** A closed process reports exactly the closed-bytes accumulators. */
  lemma {:induction false} ClosedEntries(trace: Trace, pid: uint32, d: Direction)
    requires pid in ClosedProcesses(trace)
    ensures pid in Closed(trace, d) && ClosedProcesses(trace)[pid].Bytes(d) == Closed(trace, d)[pid]
  {
    hide FirstRows, Track, Aggregate, Fold, Wrap, Total;
    ProcessPartition(trace.before);
    if pid in ActiveProcesses(trace.before) {
      FallbackUnreachable(trace, pid, Upload);
      FallbackUnreachable(trace, pid, Download);
    } else {
      ClosedEntries(trace.before, pid, d);
      InactiveKeepsClosed(trace, pid, d);
    }
  }

  lemma {:induction false} ActiveEntries(trace: Trace, pid: uint32, d: Direction)
    requires pid in ActiveProcesses(trace)
    ensures ActiveProcesses(trace)[pid].Bytes(d)
      == Wrap(Total(CumulativeOf(Active(trace), pid, d)) + GetOrZero(Closed(trace, d), pid))
  {
    hide FirstRows, Active, Closed, FirstSeen, Total, Wrap, CumulativeOf, Aggregate, Pids;
    AggregateBytes(Active(trace), pid, d, GetOrZero(Closed(trace, Upload), pid),
      GetOrZero(Closed(trace, Download), pid), FirstSeen(trace)[pid]);
  }

  lemma {:induction false} AggregateBytes(active: map<string, TrackedTransfer>, pid: uint32, d: Direction,
      uploaded: uint64, downloaded: uint64, firstSeen: Time)
    ensures Aggregate(active, pid, uploaded, downloaded, firstSeen).Bytes(d)
      == Wrap(Total(CumulativeOf(active, pid, d)) + if d == Upload then uploaded else downloaded)
  {
    hide Total, Wrap, CumulativeOf, RealTotal, RatesOf, MaxTime, UpdatesOf;
  }

  /** Trace refinement: the reported bytes of every process are the sum, over consecutive
  deduplicated snapshots and over its keys present in both, of the counter deltas.  The code adds
  in 64 bits, so the sum is taken modulo 2^64. */
  lemma {:induction false} TraceRefinement(trace: Trace, pid: uint32, d: Direction)
    ensures Reported(trace, pid, d) == Wrap(TraceBytes(trace, pid, d))
  {
    hide FirstRows, Active, Closed, TraceBytes, EndedBytes, Total, Wrap, SessionsOf, CumulativeOf, ActiveProcesses,
      ClosedProcesses;
    var active, running, ended := Total(CumulativeOf(Active(trace), pid, d)), Total(SessionsOf(trace, pid, d)),
      EndedBytes(trace, pid, d);
    Conservation(trace, pid, d);
    ActiveSums(trace, pid, d);
    ClosedSums(trace, pid, d);
    WrapSum(ended, active, running);
    ProcessPartition(trace);
    if pid in Pids(Active(trace)) {
      ActiveEntries(trace, pid, d);
    } else {
      NothingOwned(Active(trace), pid, d);
      if pid in ClosedProcesses(trace) {
        ClosedEntries(trace, pid, d);
      } else {
        UnseenHasNothingClosed(trace, pid, d);
      }
      WrapSmall(GetOrZero(Closed(trace, d), pid));
    }
  }

  lemma {:induction false} UnseenHasNothingClosed(trace: Trace, pid: uint32, d: Direction)
    requires pid !in SeenPids(trace)
    ensures pid !in Closed(trace, d)
  {
    hide FirstRows, Active, Gone, Fold;
    if trace != Start {
      UnseenHasNothingClosed(trace.before, pid, d);
      FirstSeenPids(trace.before);
      InactiveKeepsClosed(trace, pid, d);
    }
  }

  // ----- Start times

  /** A process's first-observed time is the minimum over the starts of all its sessions since the
  reset, whether it is active or closed and whatever the clock did. */
  lemma {:induction false} FirstSeenIsEarliest(trace: Trace, pid: uint32)
    requires pid in SeenPids(trace)
    ensures SessionStarts(trace, pid) != {} && pid in FirstSeen(trace)
    ensures FirstSeen(trace)[pid] == MinTime(SessionStarts(trace, pid))
  {
    hide FirstRows, LastRows, Active, Opened, MinTime, StartsOf, Earliest;
    var was := SessionStarts(trace.before, pid);
    FirstSeenPids(trace);
    FirstSeenPids(trace.before);
    if pid in SeenPids(trace.before) {
      FirstSeenIsEarliest(trace.before, pid);
    } else {
      UnseenHasNoStarts(trace.before, pid);
    }
    ActiveMirrorsSnapshot(trace);
    EarliestEntry(FirstSeen(trace.before), Active(trace), pid, was);
    assert SessionStarts(trace, pid) == was + StartsOf(Active(trace), pid) by {
      StartsInHistory(trace, pid);
      StartsAreActive(trace, pid);
    }
  }

  /** Replacing a set of starts by its minimum does not change the minimum of what follows. */
  lemma {:induction false} EarliestEntry(firstSeen: map<uint32, Time>, active: map<string, TrackedTransfer>,
      pid: uint32, was: set<Time>)
    requires pid in firstSeen.Keys + Pids(active)
    requires if pid in firstSeen then was != {} && firstSeen[pid] == MinTime(was) else was == {}
    ensures was + StartsOf(active, pid) != {} &&
      Earliest(firstSeen, active)[pid] == MinTime(was + StartsOf(active, pid))
  {
    hide MinTime, StartsOf;
    var all := was + StartsOf(active, pid);
    if pid in firstSeen {
      assert firstSeen[pid] in all;
      assert forall t | t in all :: t in was || t in {firstSeen[pid]} + StartsOf(active, pid);
    } else {
      assert all == {} + StartsOf(active, pid);
    }
  }

  lemma {:induction false} UnseenHasNoStarts(trace: Trace, pid: uint32)
    requires pid !in SeenPids(trace)
    ensures SessionStarts(trace, pid) == {}
  {
    hide FirstRows;
    if trace != Start {
      UnseenHasNoStarts(trace.before, pid);
    }
  }

  /** Every active entry's start is one of the recorded session starts. */
  lemma {:induction false} StartsInHistory(trace: Trace, pid: uint32)
    ensures StartsOf(Active(trace), pid) <= SessionStarts(trace, pid)
  {
    hide FirstRows, Wrap, RateOver;
    if trace != Start {
      StartsInHistory(trace.before, pid);
      ActiveMirrorsSnapshot(trace.before);
      forall k | k in Active(trace) && Active(trace)[k].connection.processId == pid
        ensures Active(trace)[k].firstObserved in SessionStarts(trace, pid)
      {
        if k in PriorRows(trace) {
          PriorOwner(trace, k);
          assert Active(trace.before)[k].firstObserved in StartsOf(Active(trace.before), pid);
        } else {
          assert Active(trace)[k].firstObserved in Opened(trace, pid);
        }
      }
    }
  }

  /** The sessions opened by the latest snapshot are active. */
  lemma {:induction false} StartsAreActive(trace: Trace, pid: uint32)
    requires trace != Start
    ensures Opened(trace, pid) <= StartsOf(Active(trace), pid)
  {
    hide FirstRows, Wrap, RateOver;
    ActiveMirrorsSnapshot(trace.before);
    forall k | k in LastRows(trace) && k !in PriorRows(trace) && LastRows(trace)[k].connection.processId == pid
      ensures LastRows(trace)[k].Stamp(trace.now) in StartsOf(Active(trace), pid)
    {
      assert Active(trace)[k].firstObserved in StartsOf(Active(trace), pid);
    }
  }

  /** The reported entry, active or closed, carries that minimum. */
  lemma {:induction false} FirstObservedIsEarliest(trace: Trace, pid: uint32)
    requires pid in SeenPids(trace)
    ensures SessionStarts(trace, pid) != {}
    ensures pid in ActiveProcesses(trace) ==>
      ActiveProcesses(trace)[pid].firstObserved == MinTime(SessionStarts(trace, pid))
    ensures pid in ClosedProcesses(trace) ==>
      ClosedProcesses(trace)[pid].firstObserved == MinTime(SessionStarts(trace, pid))
  {
    hide FirstRows, Active, FirstSeen, MinTime, Opened, Closed, Total, RealTotal, MaxTime;
    FirstSeenIsEarliest(trace, pid);
    ProcessPartition(trace);
    if pid in ClosedProcesses(trace) {
      ProcessPartition(trace.before);
      FirstObservedIsEarliest(trace.before, pid);
      NoNewSession(trace, pid);
    }
  }

  lemma {:induction false} NoNewSession(trace: Trace, pid: uint32)
    requires trace != Start && pid !in Pids(Active(trace))
    ensures SessionStarts(trace, pid) == SessionStarts(trace.before, pid)
  {
    hide FirstRows, Active;
    ActiveMirrorsSnapshot(trace);
    assert Opened(trace, pid) == {};
  }

  // ----- Rates

  /** A rate is never negative, is 0 when too little time passed, and otherwise spreads the delta
  over the elapsed time. */
  lemma {:induction false} RateLaw(delta: uint64, elapsed: real)
    ensures RateOver(delta, elapsed) >= 0.0
    ensures if elapsed <= 0.000000001 then RateOver(delta, elapsed) == 0.0
      else RateOver(delta, elapsed) * elapsed == delta as real
  {
    var rate := RateOver(delta, elapsed);
    if elapsed > MIN_ELAPSED {
      assert rate * elapsed == delta as real;
      assert rate < 0.0 ==> rate * elapsed < 0.0;
    }
  }

  /** The rate of a connection: the last delta over the time between the last two readings. */
  ghost function LastRate(trace: Trace, k: string, d: Direction): real
    requires k in LastRows(trace)
  {
    if k !in PriorRows(trace) then 0.0 else
      RateOver(Delta(PriorRows(trace)[k].Bytes(d), LastRows(trace)[k].Bytes(d)),
        LastRows(trace)[k].Stamp(trace.now) - PriorRows(trace)[k].Stamp(trace.before.now))
  }

  lemma {:induction false} ConnectionRate(trace: Trace, k: string, d: Direction)
    requires k in LastRows(trace)
    ensures k in Active(trace) && Active(trace)[k].Rate(d) == LastRate(trace, k, d)
  {
    hide FirstRows, Wrap, RateOver;
    ActiveMirrorsSnapshot(trace.before);
  }

  /** A process's rate is the sum of its connections' rates, in whatever order they are visited. */
  lemma {:induction false} ProcessRate(trace: Trace, pid: uint32, d: Direction)
    requires pid in ActiveProcesses(trace)
    ensures ActiveProcesses(trace)[pid].Rate(d)
      == RealTotal(map k | k in LastRows(trace) && LastRows(trace)[k].connection.processId == pid ::
        LastRate(trace, k, d))
  {
    hide FirstRows, Active, LastRate, Closed, FirstSeen, Total, RealTotal, MaxTime, CumulativeOf;
    ActiveMirrorsSnapshot(trace);
    forall k | k in LastRows(trace) ensures Active(trace)[k].Rate(d) == LastRate(trace, k, d) {
      ConnectionRate(trace, k, d);
    }
    assert RatesOf(Active(trace), pid, d)
      == map k | k in LastRows(trace) && LastRows(trace)[k].connection.processId == pid :: LastRate(trace, k, d);
  }

  // ----- Counter resets

  /** What really happened to a counter between two samples: it grew, or it restarted from zero. */
  datatype Activity = Transfer(bytes: nat) | Reset

  function CounterAfter(counter: nat, acts: seq<Activity>): nat {
    if acts == [] then counter else
      var c := CounterAfter(counter, acts[..|acts| - 1]);
      match acts[|acts| - 1]
      case Transfer(n) => c + n
      case Reset => 0
  }

  function Transferred(acts: seq<Activity>): nat {
    if acts == [] then 0 else
      Transferred(acts[..|acts| - 1]) + match acts[|acts| - 1] { case Transfer(n) => n case Reset => 0 }
  }

  /** Between two samples the delta never exceeds what was transferred, and equals it when the
  counter was not reset. */
  lemma {:induction false} DeltaNeverOvercounts(counter: uint64, acts: seq<Activity>, next: uint64)
    requires next == CounterAfter(counter, acts)
    ensures Delta(counter, next) <= Transferred(acts)
    ensures Reset !in acts ==> Delta(counter, next) == Transferred(acts) == next - counter
  {
    CounterBounds(counter, acts);
  }

  lemma {:induction false} CounterBounds(counter: nat, acts: seq<Activity>)
    ensures CounterAfter(counter, acts) <= counter + Transferred(acts)
    ensures if Reset in acts then CounterAfter(counter, acts) <= Transferred(acts)
      else CounterAfter(counter, acts) == counter + Transferred(acts)
  {
    if acts != [] {
      var front := acts[..|acts| - 1];
      CounterBounds(counter, front);
      assert acts == front + [acts[|acts| - 1]];
    }
  }

  /** The real traffic of a key between consecutive samples, one entry a call of `update`, explains
  the samples of its current session. */
  ghost predicate Explains(acts: seq<seq<Activity>>, trace: Trace, k: string, d: Direction)
  {
    k in PriorRows(trace) && k in LastRows(trace) ==>
      && acts != []
      && LastRows(trace)[k].Bytes(d) == CounterAfter(PriorRows(trace)[k].Bytes(d), acts[|acts| - 1])
      && Explains(acts[..|acts| - 1], trace.before, k, d)
  }

  /** The traffic since the current session's first sample. */
  ghost function SessionTraffic(acts: seq<seq<Activity>>, trace: Trace, k: string): nat {
    if acts == [] || k !in PriorRows(trace) || k !in LastRows(trace) then 0
    else SessionTraffic(acts[..|acts| - 1], trace.before, k) + Transferred(acts[|acts| - 1])
  }

  ghost predicate ResetFree(acts: seq<seq<Activity>>) {
    forall a | a in acts :: Reset !in a
  }

  /** The counter reading that the current session started from. */
  ghost function SessionBase(trace: Trace, k: string, d: Direction): nat
    requires k in LastRows(trace)
  {
    if k in PriorRows(trace) then SessionBase(trace.before, k, d) else LastRows(trace)[k].Bytes(d)
  }

  /** A session's bytes never exceed what was really transferred since its first sample, however
  often the counter was reset; without resets they are exactly last minus first. */
  lemma {:induction false} NeverOvercounts(acts: seq<seq<Activity>>, trace: Trace, k: string, d: Direction)
    requires Explains(acts, trace, k, d) && k in LastRows(trace)
    ensures SessionBytes(trace, k, d) <= SessionTraffic(acts, trace, k)
    ensures ResetFree(acts) ==>
      SessionBytes(trace, k, d) == SessionTraffic(acts, trace, k)
        == LastRows(trace)[k].Bytes(d) - SessionBase(trace, k, d)
    decreases trace
  {
    hide FirstRows;
    if k in PriorRows(trace) {
      var front, last := acts[..|acts| - 1], acts[|acts| - 1];
      NeverOvercounts(front, trace.before, k, d);
      DeltaNeverOvercounts(PriorRows(trace)[k].Bytes(d), last, LastRows(trace)[k].Bytes(d));
    }
  }

  lemma {:induction false} CumulativeNext(trace: Trace, k: string, d: Direction)
    requires k in PriorRows(trace) && k in LastRows(trace)
    ensures k in Active(trace.before) && k in Active(trace)
    ensures var delta := Delta(PriorRows(trace)[k].Bytes(d), LastRows(trace)[k].Bytes(d));
      Active(trace)[k].Cumulative(d) == Wrap(Active(trace.before)[k].Cumulative(d) + delta)
  {
    hide FirstRows, RateOver, Wrap, Delta;
    ActiveMirrorsSnapshot(trace.before);
  }

  /** A 64-bit addition does not go down exactly when it does not wrap. */
  lemma {:induction false} WrapOrder(was: uint64, delta: uint64)
    ensures was <= Wrap(was + delta) <==> was + delta < TWO_TO_THE_64
  {
    if was + delta >= TWO_TO_THE_64 {
      assert Wrap(was + delta) == was + delta - TWO_TO_THE_64;
    }
  }

  /** One step of a continuing session's reported counter, in one direction: it advances by the delta,
  modulo 2^64, so it does not go down exactly when that sum fits 64 bits. */
  lemma {:induction false} CumulativeStep(trace: Trace, k: string, d: Direction)
    requires k in PriorRows(trace) && k in LastRows(trace)
    ensures k in Active(trace.before) && k in Active(trace)
    ensures var delta := Delta(PriorRows(trace)[k].Bytes(d), LastRows(trace)[k].Bytes(d));
      var was, now := Active(trace.before)[k].Cumulative(d), Active(trace)[k].Cumulative(d);
      && now == Wrap(was + delta)
      && (was <= now <==> was + delta < TWO_TO_THE_64)
  {
    hide FirstRows, Active, Wrap, Delta;
    CumulativeNext(trace, k, d);
    WrapOrder(Active(trace.before)[k].Cumulative(d), Delta(PriorRows(trace)[k].Bytes(d), LastRows(trace)[k].Bytes(d)));
  }

  /** Over a whole session: as long as its bytes of one direction fit 64 bits, the reported counter of
  that direction is the exact total and never goes down. */
  lemma {:induction false} CumulativeIsMonotone(trace: Trace, k: string, d: Direction)
    requires k in PriorRows(trace) && k in LastRows(trace)
    requires SessionBytes(trace, k, d) < TWO_TO_THE_64
    ensures k in Active(trace.before) && k in Active(trace)
    ensures Active(trace)[k].Cumulative(d) == SessionBytes(trace, k, d)
    ensures Active(trace.before)[k].Cumulative(d) <= Active(trace)[k].Cumulative(d)
  {
    hide FirstRows, Active, Wrap;
    ActiveSession(trace.before, k);
    ActiveSession(trace, k);
    CumulativeStep(trace, k, d);
    WrapSmall(SessionBytes(trace.before, k, d));
    WrapSmall(SessionBytes(trace, k, d));
  }
}
