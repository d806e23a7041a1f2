/** The closed connection records against the closed totals.  A key that ends again overwrites its older
record, so the records of a process add up to its closed total exactly when no overwritten record held
bytes; over all byte counters, when no key ends again after a session of at least two samples. */
module ClosedRecords {
  import opened Model
  import opened FiniteSums
  import opened IdentityKey
  import opened TransferAccounting
  import opened TransferTheorems
  import opened Samples
  import opened Schedules
  import OneWayTracker

  // ----- What the records hold

  /** The bytes of the closed connection records of a process. */
  ghost function RecordsOf(t: Trace, pid: uint32, d: Direction): map<string, nat> {
    map k | k in ClosedConnections(t) && ClosedConnections(t)[k].processId == pid ::
      RecordBytes(ClosedConnections(t)[k], d)
  }

  function RecordBytes(s: ConnectionBandwidthStats, d: Direction): uint64 {
    if d == Upload then s.uploadedBytes else s.downloadedBytes
  }

  /** The bytes of the last ended session of each key of a process. */
  ghost function LastEnded(t: Trace, pid: uint32, d: Direction): map<string, nat> {
    if t == Start then map[] else LastEnded(t.before, pid, d) + EndedOf(t, pid, d)
  }

  /** The bytes of the sessions whose records were overwritten. */
  ghost function Lost(t: Trace, pid: uint32, d: Direction): nat {
    if t == Start then 0
    else Lost(t.before, pid, d) + Total(Restrict(LastEnded(t.before, pid, d), EndedOf(t, pid, d).Keys))
  }

  lemma {:induction false} TotalOverride(m: map<string, nat>, n: map<string, nat>)
    ensures Total(m + n) + Total(Restrict(m, n.Keys)) == Total(m) + Total(n)
  {
    hide Total;
    var kept, lost := Restrict(m, m.Keys - n.Keys), Restrict(m, n.Keys);
    TotalSplit(m + n, kept, n);
    TotalSplit(m, kept, lost);
  }

  /** Every ended byte is in a last ended session or lost. */
  lemma {:induction false} EndedAccount(t: Trace, pid: uint32, d: Direction)
    ensures Total(LastEnded(t, pid, d)) + Lost(t, pid, d) == EndedBytes(t, pid, d)
  {
    hide Total, EndedOf;
    if t == Start {
      TotalZero(LastEnded(t, pid, d));
    } else {
      EndedAccount(t.before, pid, d);
      TotalOverride(LastEnded(t.before, pid, d), EndedOf(t, pid, d));
    }
  }

  /** The key of a record tells the process it belongs to. */
  ghost predicate OwnedKey(k: string, pid: uint32) {
    exists c: Connection :: Key(c) == k && c.processId == pid
  }

  lemma {:induction false} OneOwner(k: string, a: uint32, b: uint32)
    requires OwnedKey(k, a) && OwnedKey(k, b)
    ensures a == b
  {
    hide Key;
    var c: Connection :| Key(c) == k && c.processId == a;
    var e: Connection :| Key(e) == k && e.processId == b;
    KeyDeterminesOwner(c, e);
  }

  lemma {:induction false} RowOwner(t: Trace, k: string)
    requires k in LastRows(t)
    ensures OwnedKey(k, LastRows(t)[k].connection.processId)
  {
    hide Key, FirstRows;
    FirstRowsKeyed(t.snapshots, k);
    var c := LastRows(t)[k].connection;
    assert Key(c) == k;
  }

  /** A snapshot's ended sessions, as the closing loop records them. */
  lemma {:induction false} GoneRecord(t: Trace, k: string, d: Direction)
    requires t != Start
    ensures k in Gone(t) <==> k in PriorRows(t) && k !in LastRows(t)
    ensures k in Gone(t) ==>
      && Records(Gone(t))[k].processId == PriorRows(t)[k].connection.processId
      && RecordBytes(Records(Gone(t))[k], d) == Wrap(SessionBytes(t.before, k, d))
      && OwnedKey(k, PriorRows(t)[k].connection.processId)
  {
    hide FirstRows, Active, Wrap, Key;
    ActiveMirrorsSnapshot(t.before);
    if k in Gone(t) {
      ActiveSession(t.before, k);
      PriorIsLast(t);
      RowOwner(t.before, k);
    }
  }

  /** The records of a process hold, modulo 2^64, the bytes of its last ended sessions. */
  lemma {:induction false} RecordIsLastEnded(t: Trace, pid: uint32, d: Direction, k: string)
    ensures k in ClosedConnections(t) ==> OwnedKey(k, ClosedConnections(t)[k].processId)
    ensures k in LastEnded(t, pid, d) <==> k in ClosedConnections(t) && ClosedConnections(t)[k].processId == pid
    ensures k in LastEnded(t, pid, d) ==> RecordBytes(ClosedConnections(t)[k], d) == Wrap(LastEnded(t, pid, d)[k])
  {
    hide FirstRows, Active, Wrap, Gone, OwnedKey, Records, RecordBytes, SessionBytes;
    if t != Start {
      RecordIsLastEnded(t.before, pid, d, k);
      GoneRecord(t, k, d);
      RecordsKeys(t);
      if k in Gone(t) && k in ClosedConnections(t.before) {
        OneOwner(k, PriorRows(t)[k].connection.processId, ClosedConnections(t.before)[k].processId);
      }
    }
  }

  lemma {:induction false} RecordsKeys(t: Trace)
    requires t != Start
    ensures Records(Gone(t)).Keys == Gone(t).Keys
    ensures ClosedConnections(t) == ClosedConnections(t.before) + Records(Gone(t))
  {
    hide Gone, FirstRows;
  }

  lemma {:induction false} RecordsAreLastEnded(t: Trace, pid: uint32, d: Direction)
    ensures RecordsOf(t, pid, d).Keys == LastEnded(t, pid, d).Keys
    ensures forall k | k in RecordsOf(t, pid, d) :: RecordsOf(t, pid, d)[k] == Wrap(LastEnded(t, pid, d)[k])
  {
    hide LastEnded, ClosedConnections, Wrap, OwnedKey, RecordBytes;
    forall k: string
      ensures k in RecordsOf(t, pid, d) <==> k in LastEnded(t, pid, d)
      ensures k in RecordsOf(t, pid, d) ==> RecordsOf(t, pid, d)[k] == Wrap(LastEnded(t, pid, d)[k])
    {
      RecordIsLastEnded(t, pid, d, k);
    }
  }

  /** After any run: the records of a process and what was overwritten add up, modulo 2^64, to the
  process's closed total. */
  lemma {:induction false} RecordsAccount(t: Trace, pid: uint32, d: Direction)
    ensures Wrap(Total(RecordsOf(t, pid, d)) + Lost(t, pid, d)) == GetOrZero(Closed(t, d), pid)
  {
    hide LastEnded, RecordsOf, Lost, Total, Wrap, EndedBytes, Closed;
    RecordsAreLastEnded(t, pid, d);
    TotalCongruent(LastEnded(t, pid, d), RecordsOf(t, pid, d));
    EndedAccount(t, pid, d);
    ClosedSums(t, pid, d);
    WrapAdd(Total(LastEnded(t, pid, d)), Lost(t, pid, d));
    WrapAdd(Total(RecordsOf(t, pid, d)), Lost(t, pid, d));
  }

  /** While the ended bytes fit 64 bits, the records add up to the closed total exactly when no
  overwritten record held bytes. */
  lemma {:induction false} RecordsConserved(t: Trace, pid: uint32, d: Direction)
    requires EndedBytes(t, pid, d) < TWO_TO_THE_64
    ensures Total(RecordsOf(t, pid, d)) == GetOrZero(Closed(t, d), pid) <==> Lost(t, pid, d) == 0
  {
    hide LastEnded, RecordsOf, Lost, Total, Wrap, EndedBytes, Closed;
    RecordsAreLastEnded(t, pid, d);
    EndedAccount(t, pid, d);
    ClosedSums(t, pid, d);
    WrapSmall(EndedBytes(t, pid, d));
    forall k | k in LastEnded(t, pid, d) ensures RecordsOf(t, pid, d)[k] == LastEnded(t, pid, d)[k] {
      TotalRemove(LastEnded(t, pid, d), k);
      WrapSmall(LastEnded(t, pid, d)[k]);
    }
    assert RecordsOf(t, pid, d) == LastEnded(t, pid, d);
  }

  /** The records of the one-way trackers are the same. */
  lemma {:induction false} OneWayRecords(t: Trace, pid: uint32, d: Direction)
    ensures RecordsOf(t, pid, d) ==
      map k | k in OneWayTracker.ClosedOneWay(t, d) && OneWayTracker.ClosedOneWay(t, d)[k].processId == pid ::
        OneWayTracker.ClosedOneWay(t, d)[k].bytes
  {
    hide ClosedConnections, OneWayTracker.ClosedOneWay;
    OneWayTracker.ClosedProjects(t, d);
    forall k | k in ClosedConnections(t)
      ensures ClosedConnections(t)[k].processId == OneWayTracker.ClosedOneWay(t, d)[k].processId
      ensures RecordBytes(ClosedConnections(t)[k], d) == OneWayTracker.ClosedOneWay(t, d)[k].bytes
    {
      assert OneWayTracker.ProjectStats(ClosedConnections(t)[k], d) == OneWayTracker.ClosedOneWay(t, d)[k];
    }
  }

  // ----- For all byte counters

  /** The snapshot of `v` ends a session of the key. */
  ghost predicate Closes(v: Trace, t: Trace, pid: uint32, k: string) {
    Within(v, t) && v != Start && Owns(v.before, pid, k) && k !in LastRows(v)
  }

  /** No key of the process ends again after a session of at least two samples. */
  ghost predicate RecordsKept(t: Trace, pid: uint32) {
    forall v, w, k | Closes(v, t, pid, k) && Closes(w, t, pid, k) && Length(v) < Length(w) ::
      !Continues(v.before, pid, k)
  }

  lemma {:induction false} EndedOfAt(t: Trace, pid: uint32, d: Direction, k: string)
    requires t != Start
    ensures k in EndedOf(t, pid, d) <==> Closes(t, t, pid, k)
    ensures k in EndedOf(t, pid, d) ==> EndedOf(t, pid, d)[k] == SessionBytes(t.before, k, d)
  {
    hide FirstRows;
    PriorIsLast(t);
  }

  /** Where the last session of a key ended. */
  lemma {:induction false} LastEndedAt(t: Trace, pid: uint32, d: Direction, k: string) returns (v: Trace)
    requires k in LastEnded(t, pid, d)
    ensures Closes(v, t, pid, k) && LastEnded(t, pid, d)[k] == SessionBytes(v.before, k, d)
  {
    hide FirstRows, SessionBytes, EndedOf, Owns;
    EndedOfAt(t, pid, d, k);
    if k in EndedOf(t, pid, d) {
      v := t;
    } else {
      v := LastEndedAt(t.before, pid, d, k);
    }
  }

  lemma {:induction false} NothingLost(t: Trace, full: Trace, pid: uint32, d: Direction)
    requires Within(t, full) && RecordsKept(full, pid)
    ensures Lost(t, pid, d) == 0
    decreases t
  {
    hide Total, EndedOf, LastEnded, FirstRows, RecordsKept, Owns;
    if t != Start {
      WithinBefore(t, full);
      NothingLost(t.before, full, pid, d);
      var lost := Restrict(LastEnded(t.before, pid, d), EndedOf(t, pid, d).Keys);
      forall k | k in lost ensures lost[k] == 0 {
        EndedOfAt(t, pid, d, k);
        var v := LastEndedAt(t.before, pid, d, k);
        EndsAgain(v, t, full, pid, d, k);
      }
      TotalZero(lost);
    }
  }

  lemma {:induction false} EndsAgain(v: Trace, t: Trace, full: Trace, pid: uint32, d: Direction, k: string)
    requires Within(t, full) && t != Start && RecordsKept(full, pid)
    requires Closes(v, t.before, pid, k) && Closes(t, t, pid, k)
    ensures SessionBytes(v.before, k, d) == 0
  {
    hide FirstRows;
    WithinLength(v, t.before);
    WithinBefore(t, full);
    WithinTransitive(v, t.before, full);
    assert Closes(v, full, pid, k) && Closes(t, full, pid, k);
    assert !Continues(v.before, pid, k);
  }

  /** Once a byte ended with a key, it is in the key's record or it was lost. */
  lemma {:induction false} ByteStays(v: Trace, t: Trace, pid: uint32, d: Direction, k: string)
    requires Within(v, t) && Closes(v, v, pid, k) && SessionBytes(v.before, k, d) > 0
    ensures Lost(t, pid, d) > 0 || (k in LastEnded(t, pid, d) && LastEnded(t, pid, d)[k] > 0)
    decreases t
  {
    hide FirstRows, EndedOf, SessionBytes, Total, Owns;
    EndedOfAt(t, pid, d, k);
    if v != t {
      ByteStays(v, t.before, pid, d, k);
      ByteLost(t, pid, d, k);
    }
  }

  /** A session that ends takes the byte of the last one out of the record. */
  lemma {:induction false} ByteLost(t: Trace, pid: uint32, d: Direction, k: string)
    requires t != Start
    ensures Lost(t.before, pid, d) <= Lost(t, pid, d)
    ensures k in LastEnded(t.before, pid, d) && LastEnded(t.before, pid, d)[k] > 0 && Closes(t, t, pid, k) ==>
      Lost(t, pid, d) > 0
  {
    hide FirstRows, EndedOf, SessionBytes, Total, LastEnded, Owns;
    EndedOfAt(t, pid, d, k);
    var lost := Restrict(LastEnded(t.before, pid, d), EndedOf(t, pid, d).Keys);
    if k in lost {
      TotalRemove(lost, k);
    }
  }

  lemma {:induction false} LostGrows(w: Trace, t: Trace, pid: uint32, d: Direction)
    requires Within(w, t)
    ensures Lost(w, pid, d) <= Lost(t, pid, d)
    decreases t
  {
    hide Total, EndedOf, LastEnded;
    if w != t {
      LostGrows(w, t.before, pid, d);
    }
  }

  /** A byte that ended with a key is lost when the key ends again. */
  lemma {:induction false} ReclosingLoses(v: Trace, w: Trace, t: Trace, pid: uint32, d: Direction, k: string)
    requires Closes(v, t, pid, k) && Closes(w, t, pid, k) && Length(v) < Length(w)
    requires SessionBytes(v.before, k, d) > 0
    ensures Lost(t, pid, d) > 0
  {
    hide FirstRows, EndedOf, SessionBytes, Total, Owns, Lost, LastEnded;
    WithinBefore(w, t);
    WithinOrdered(v, w.before, t);
    ByteStays(v, w.before, pid, d, k);
    ByteLost(w, pid, d, k);
    LostGrows(w, t, pid, d);
  }

  /** Whatever the byte counters, the records of the process add up to its closed total. */
  ghost predicate ConservedForAllCounters(t: Trace, pid: uint32, d: Direction) {
    forall u | SameSchedule(t, u) && EndedBytes(u, pid, d) < TWO_TO_THE_64 ::
      Total(RecordsOf(u, pid, d)) == GetOrZero(Closed(u, d), pid)
  }

  lemma {:induction false} ClosesSchedule(v: Trace, t: Trace, u: Trace, pid: uint32, k: string) returns (x: Trace)
    requires SameSchedule(t, u) && Closes(v, t, pid, k)
    ensures Closes(x, u, pid, k) && Length(x) == Length(v)
    ensures Continues(x.before, pid, k) == Continues(v.before, pid, k)
  {
    hide FirstRows, Continues, Owns, Within;
    x := PartSchedule(v, t, u);
    LastRowsSchedule(v, x);
    SampleSchedule(v.before, x.before, pid, k);
  }

  lemma {:induction false} KeptSchedule(t: Trace, u: Trace, pid: uint32)
    requires SameSchedule(t, u) && RecordsKept(t, pid)
    ensures RecordsKept(u, pid)
  {
    hide FirstRows, Owns, Within, Continues, SameSchedule;
    ScheduleSymmetric(t, u);
    forall v, w, k | Closes(v, u, pid, k) && Closes(w, u, pid, k) && Length(v) < Length(w)
      ensures !Continues(v.before, pid, k)
    {
      var x := ClosesSchedule(v, u, t, pid, k);
      var y := ClosesSchedule(w, u, t, pid, k);
    }
  }

  /** One byte in the last sample of a session that is not its first, and the key ends again. */
  lemma {:induction false} BreakingCounters(v: Trace, w: Trace, t: Trace, pid: uint32, d: Direction, k: string)
    requires Closes(v, t, pid, k) && Closes(w, t, pid, k) && Length(v) < Length(w) && Continues(v.before, pid, k)
    ensures !ConservedForAllCounters(t, pid, d)
  {
    hide FirstRows, SameSchedule, Recounted, EndedBytes, TraceBytes, Lost, RecordsOf, Closed, Total, Continues, Opening,
      SessionBytes, Owns;
    var a, b := Mark(k, Length(v.before)), Mark(k, Length(t) + 1);
    var u := Recounted(t, a, b);
    RecountedSchedule(t, a, b);
    var x := ClosesSchedule(v, t, u, pid, k);
    var y := ClosesSchedule(w, t, u, pid, k);
    OpeningBound(v.before, pid, k);
    RecountedTraffic(t, u, a, b, pid, d);
    Conservation(u, pid, d);
    RecountedClosing(v, x, t, a, b, pid, d, k);
    ReclosingLoses(x, y, u, pid, d, k);
    RecordsConserved(u, pid, d);
  }

  lemma {:induction false} RecountedClosing(v: Trace, x: Trace, t: Trace, a: Mark, b: Mark, pid: uint32, d: Direction,
      k: string)
    requires Closes(v, t, pid, k) && Continues(v.before, pid, k) && a == Mark(k, Length(v.before))
    requires Within(x, Recounted(t, a, b)) && Length(x) == Length(v)
    ensures x != Start && SessionBytes(x.before, k, d) > 0
  {
    hide FirstRows, RecountRows, Opening, SessionBytes;
    RecountedWithin(v, t, a, b);
    RecountedSchedule(v, a, b);
    ScheduleSymmetric(v, Recounted(v, a, b));
    WithinUnique(x, Recounted(v, a, b), Recounted(t, a, b));
    OpeningBound(v.before, pid, k);
    PassedInSession(v.before, Recounted(v.before, a, b), a, b, k, d);
  }

  /** For every schedule of connections: the closed records of a process add up to its closed total for
  all byte counters exactly when no key of the process ends again after a session of at least two
  samples. */
  lemma {:induction false} ConservationIsExact(t: Trace, pid: uint32, d: Direction)
    ensures ConservedForAllCounters(t, pid, d) <==> RecordsKept(t, pid)
  {
    hide FirstRows, Owns, SameSchedule, EndedBytes, Lost, RecordsOf, Closed, Total, Continues;
    if RecordsKept(t, pid) {
      forall u | SameSchedule(t, u) && EndedBytes(u, pid, d) < TWO_TO_THE_64
        ensures Total(RecordsOf(u, pid, d)) == GetOrZero(Closed(u, d), pid)
      {
        KeptSchedule(t, u, pid);
        assert Within(u, u);
        NothingLost(u, u, pid, d);
        RecordsConserved(u, pid, d);
      }
    } else {
      var v, w, k :| Closes(v, t, pid, k) && Closes(w, t, pid, k) && Length(v) < Length(w) &&
        Continues(v.before, pid, k);
      BreakingCounters(v, w, t, pid, d, k);
    }
  }

  // ----- An input on which the records are not conserved

  /** One connection that transfers, ends, reopens and ends again. */
  function TwoSessions(c: Connection): Trace {
    var once := Then(Then(Then(Start, [Sample(c, 0)], 1.0), [Sample(c, 100)], 2.0), [], 3.0);
    Then(Then(once, [Sample(c, 0)], 4.0), [], 5.0)
  }

  /** The second closing overwrites the record of the first: the process's closed total is 100, the
  connection's closed record is 0. */
  lemma {:induction false} ReclosingOverwrites(c: Connection)
    ensures var t, k, pid := TwoSessions(c), Key(c), c.processId;
      && GetOrZero(Closed(t, Upload), pid) == 100
      && k in ClosedConnections(t) && ClosedConnections(t)[k].uploadedBytes == 0
      && Total(RecordsOf(t, pid, Upload)) == 0
  {
    hide Key, Total, Wrap, Closed, ClosedConnections, LastEnded, EndedBytes, Lost;
    var t, k, pid := TwoSessions(c), Key(c), c.processId;
    var four, three, two := t.before, t.before.before, t.before.before.before;
    OneRow(Sample(c, 0));
    OneRow(Sample(c, 100));
    NoRows();
    assert LastRows(t).Keys == {} && LastRows(three).Keys == {};
    SessionsOfTwo(c);
    EndedSteps(c);
    ClosedSums(t, pid, Upload);
    WrapSmall(100);
    RecordIsLastEnded(t, pid, Upload, k);
    WrapSmall(0);
    RecordsAreLastEnded(t, pid, Upload);
    TotalZero(RecordsOf(t, pid, Upload));
  }

  lemma {:induction false} NoRows()
    ensures FirstRows([]) == map[]
  {
  }

  lemma {:induction false} SessionsOfTwo(c: Connection)
    ensures var t, k := TwoSessions(c), Key(c);
      SessionBytes(t.before.before.before, k, Upload) == 100 && SessionBytes(t.before, k, Upload) == 0
  {
    hide Key;
    OneRow(Sample(c, 0));
    OneRow(Sample(c, 100));
    NoRows();
  }

  /** A snapshot that ends nothing changes nothing. */
  lemma {:induction false} EndsNothing(t: Trace, pid: uint32, d: Direction)
    requires t != Start && EndedOf(t, pid, d).Keys == {}
    ensures EndedBytes(t, pid, d) == EndedBytes(t.before, pid, d)
    ensures LastEnded(t, pid, d) == LastEnded(t.before, pid, d)
  {
    hide EndedOf, Total;
    TotalZero(EndedOf(t, pid, d));
    assert EndedOf(t, pid, d) == map[];
  }

  lemma {:induction false} EndsOne(t: Trace, pid: uint32, d: Direction, k: string)
    requires t != Start && EndedOf(t, pid, d).Keys == {k}
    ensures EndedBytes(t, pid, d) == EndedBytes(t.before, pid, d) + EndedOf(t, pid, d)[k]
    ensures LastEnded(t, pid, d) == LastEnded(t.before, pid, d)[k := EndedOf(t, pid, d)[k]]
  {
    hide EndedOf, Total;
    OneTotal(EndedOf(t, pid, d), k);
  }

  /** What the five snapshots ended. */
  lemma {:induction false} EndedSteps(c: Connection)
    ensures var t, k, pid := TwoSessions(c), Key(c), c.processId;
      && EndedBytes(t, pid, Upload) == 100
      && LastEnded(t, pid, Upload).Keys == {k} && LastEnded(t, pid, Upload)[k] == 0
  {
    hide Key, EndedBytes, LastEnded, SessionBytes;
    var t, k, pid := TwoSessions(c), Key(c), c.processId;
    var four, three, two, one := t.before, t.before.before, t.before.before.before, t.before.before.before.before;
    OneRow(Sample(c, 0));
    OneRow(Sample(c, 100));
    NoRows();
    SessionsOfTwo(c);
    NothingEnded(pid, Upload);
    EndsNothing(one, pid, Upload);
    EndsNothing(two, pid, Upload);
    EndsOne(three, pid, Upload, k);
    EndsNothing(four, pid, Upload);
    EndsOne(t, pid, Upload, k);
  }

  lemma {:induction false} NothingEnded(pid: uint32, d: Direction)
    ensures EndedBytes(Start, pid, d) == 0 && LastEnded(Start, pid, d) == map[]
  {
  }
}
