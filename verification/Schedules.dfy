/** Schedules: runs that differ in their byte counters only, and counters that transfer a byte at one or
two marked samples.  They show that a condition on the connections is necessary for all counters. */
module Schedules {
  import opened Model
  import opened FiniteSums
  import opened IdentityKey
  import opened TransferAccounting
  import opened Samples
  import Endpoint

  // ----- Schedules

  /** The same rows, but for the byte counters. */
  predicate SameRows(a: seq<TransferSnapshot>, b: seq<TransferSnapshot>) {
    && |a| == |b|
    && forall i | 0 <= i < |a| :: b[i] == a[i].(bytesSent := b[i].bytesSent, bytesReceived := b[i].bytesReceived)
  }

  ghost predicate SameSchedule(a: Trace, b: Trace) {
    if a == Start || b == Start then a == b
    else SameRows(a.snapshots, b.snapshots) && a.now == b.now && SameSchedule(a.before, b.before)
  }

  /** Two maps of rows agree but for the byte counters. */
  ghost predicate SameConnections(a: map<string, TransferSnapshot>, b: map<string, TransferSnapshot>) {
    a.Keys == b.Keys && forall k | k in a :: a[k].connection == b[k].connection
  }

  lemma {:induction false} FirstRowsSchedule(a: seq<TransferSnapshot>, b: seq<TransferSnapshot>)
    requires SameRows(a, b)
    ensures SameConnections(FirstRows(a), FirstRows(b))
  {
    hide Key;
    if a != [] {
      FirstRowsSchedule(a[..|a| - 1], b[..|b| - 1]);
    }
  }

  lemma {:induction false} LastRowsSchedule(a: Trace, b: Trace)
    requires SameSchedule(a, b)
    ensures SameConnections(LastRows(a), LastRows(b)) && SameConnections(PriorRows(a), PriorRows(b))
  {
    hide FirstRows;
    if a != Start {
      FirstRowsSchedule(a.snapshots, b.snapshots);
      if a.before != Start {
        FirstRowsSchedule(a.before.snapshots, b.before.snapshots);
      }
    }
  }

  lemma {:induction false} ScheduleSymmetric(a: Trace, b: Trace)
    requires SameSchedule(a, b)
    ensures SameSchedule(b, a) && Length(a) == Length(b)
  {
    if a != Start {
      ScheduleSymmetric(a.before, b.before);
    }
  }

  /** What a schedule determines of a sample. */
  lemma {:induction false} SampleSchedule(a: Trace, b: Trace, pid: uint32, k: string)
    requires SameSchedule(a, b)
    ensures Owns(a, pid, k) == Owns(b, pid, k) && Continues(a, pid, k) == Continues(b, pid, k)
    ensures RemoteOfKey(a, k) == RemoteOfKey(b, k) && Opening(a, k) == Opening(b, k)
    decreases a
  {
    hide FirstRows, Endpoint.FormatEndpoint;
    LastRowsSchedule(a, b);
    ScheduleSymmetric(a, b);
    if a != Start {
      SampleSchedule(a.before, b.before, pid, k);
    }
  }

  /** The same initial part of another run of the schedule. */
  lemma {:induction false} PartSchedule(v: Trace, t: Trace, u: Trace) returns (x: Trace)
    requires SameSchedule(t, u) && Within(v, t)
    ensures Within(x, u) && SameSchedule(v, x) && Length(x) == Length(v)
    decreases t
  {
    if v == t {
      x := u;
      ScheduleSymmetric(t, u);
    } else {
      x := PartSchedule(v, t.before, u.before);
    }
  }

  lemma {:induction false} EndsPart(v: Trace, x: Trace, t: Trace, u: Trace, k: string)
    requires SameSchedule(t, u) && Within(v, u) && Within(x, t) && Length(x) == Length(v) && Ends(v, u, k)
    ensures Ends(x, t, k)
  {
    hide Within, FirstRows;
    forall w | Within(w, t) && w != Start && w.before == x ensures k !in LastRows(w) {
      var z := PartSchedule(w, t, u);
      LastRowsSchedule(w, z);
      WithinBefore(z, u);
      WithinUnique(z.before, v, u);
    }
  }

  // ----- Counters with marks

  /** From sample `at` on, the counter of `key` shows one byte more. */
  datatype Mark = Mark(key: string, at: nat)

  function Passed(m: Mark, key: string, n: nat): nat {
    if m.key == key && n >= m.at then 1 else 0
  }

  function CounterOf(a: Mark, b: Mark, key: string, n: nat): uint64 {
    Passed(a, key, n) + Passed(b, key, n)
  }

  function Recount(row: TransferSnapshot, c: uint64): TransferSnapshot {
    row.(bytesSent := c, bytesReceived := c)
  }

  function RecountRows(rows: seq<TransferSnapshot>, a: Mark, b: Mark, n: nat): seq<TransferSnapshot> {
    seq(|rows|, i requires 0 <= i < |rows| => Recount(rows[i], CounterOf(a, b, Key(rows[i].connection), n)))
  }

  /** The same schedule, in which two marked samples are all that transfers anything. */
  function Recounted(t: Trace, a: Mark, b: Mark): Trace {
    if t == Start then Start
    else Then(Recounted(t.before, a, b), RecountRows(t.snapshots, a, b, Length(t)), t.now)
  }

  lemma {:induction false} RecountedSchedule(t: Trace, a: Mark, b: Mark)
    ensures SameSchedule(t, Recounted(t, a, b))
  {
    hide Key, CounterOf;
    if t != Start {
      RecountedSchedule(t.before, a, b);
    }
  }

  lemma {:induction false} FirstRowsRecounted(rows: seq<TransferSnapshot>, a: Mark, b: Mark, n: nat, d: Direction)
    ensures FirstRows(RecountRows(rows, a, b, n)).Keys == FirstRows(rows).Keys
    ensures forall k | k in FirstRows(rows) ::
      FirstRows(RecountRows(rows, a, b, n))[k].Bytes(d) == CounterOf(a, b, k, n)
  {
    hide Key, CounterOf;
    if rows != [] {
      var front := rows[..|rows| - 1];
      FirstRowsRecounted(front, a, b, n, d);
      assert RecountRows(rows, a, b, n)[..|rows| - 1] == RecountRows(front, a, b, n);
    }
  }

  lemma {:induction false} RecountedBytes(t: Trace, u: Trace, a: Mark, b: Mark, d: Direction)
    requires t != Start && u == Recounted(t, a, b)
    ensures LastRows(u).Keys == LastRows(t).Keys
    ensures forall k | k in LastRows(u) :: LastRows(u)[k].Bytes(d) == CounterOf(a, b, k, Length(t))
  {
    hide FirstRows, CounterOf, Key;
    FirstRowsRecounted(t.snapshots, a, b, Length(t), d);
  }

  /** The bytes of a session: the marks it passed since its opening. */
  lemma {:induction false} RecountedSession(t: Trace, u: Trace, a: Mark, b: Mark, k: string, d: Direction)
    requires u == Recounted(t, a, b) && k in LastRows(t)
    ensures CounterOf(a, b, k, Opening(t, k)) <= CounterOf(a, b, k, Length(t))
    ensures SessionBytes(u, k, d) == CounterOf(a, b, k, Length(t)) - CounterOf(a, b, k, Opening(t, k))
    decreases t
  {
    hide FirstRows, RecountRows;
    RecountedBytes(t, u, a, b, d);
    RecountedSchedule(t, a, b);
    LastRowsSchedule(t, u);
    if k in PriorRows(t) {
      RecountedBytes(t.before, u.before, a, b, d);
      RecountedSession(t.before, u.before, a, b, k, d);
    }
  }

  /** A session with bytes passed a mark. */
  lemma {:induction false} PassedInSession(t: Trace, u: Trace, a: Mark, b: Mark, k: string, d: Direction)
    requires u == Recounted(t, a, b) && k in LastRows(t)
    ensures var x := if a.key == k && Opening(t, k) < a.at <= Length(t) then 1 else 0;
      var y := if b.key == k && Opening(t, k) < b.at <= Length(t) then 1 else 0;
      SessionBytes(u, k, d) == x + y
  {
    hide FirstRows, Recounted;
    RecountedSession(t, u, a, b, k, d);
    OpeningBound(t, 0, k);
  }

  lemma {:induction false} MarkTotal(m: map<string, nat>, j: string, k: string, x: nat, y: nat)
    requires forall i | i in m :: m[i] == (if i == j then x else 0) + if i == k then y else 0
    ensures Total(m) <= x + y
    ensures (x > 0 ==> j in m) && (y > 0 ==> k in m) ==> Total(m) == x + y
  {
    hide Total;
    var rest := m - {j, k};
    TotalZero(rest);
    if j in m {
      TotalRemove(m, j);
    }
    if k in m && k != j {
      TotalRemove(m - {j}, k);
      assert m - {j} - {k} == rest;
    } else {
      assert m - {j} == rest;
    }
    assert j !in m ==> m - {j} == m;
  }

  /** The marked key is continued where it is marked. */
  ghost predicate MarksSample(m: Mark, t: Trace, pid: uint32) {
    forall v | Within(v, t) && Length(v) == m.at :: Continues(v, pid, m.key)
  }

  ghost predicate Reached(m: Mark, t: Trace) {
    Length(t) >= m.at
  }

  function One(c: bool): nat {
    if c then 1 else 0
  }

  /** At most the passed marks were transferred, and exactly they if they mark two samples of the process. */
  lemma {:induction false} RecountedTraffic(t: Trace, u: Trace, a: Mark, b: Mark, pid: uint32, d: Direction)
    requires a.at >= 1 && b.at >= 1 && u == Recounted(t, a, b)
    ensures TraceBytes(u, pid, d) <= One(Reached(a, t)) + One(Reached(b, t))
    ensures MarksSample(a, t, pid) && MarksSample(b, t, pid) ==>
      TraceBytes(u, pid, d) == One(Reached(a, t)) + One(Reached(b, t))
    decreases t
  {
    hide FirstRows, Total, RecountRows;
    if t != Start {
      RecountedTraffic(t.before, u.before, a, b, pid, d);
      MarksBefore(a, t, pid);
      MarksBefore(b, t, pid);
      UnfoldTraceBytes(u, pid, d);
      var deltas := StepDeltas(PriorRows(u), LastRows(u), pid, d);
      var x, y := One(a.at == Length(t)), One(b.at == Length(t));
      forall i: string
        ensures i in deltas <==> Continues(t, pid, i)
        ensures i in deltas ==> deltas[i] == (if i == a.key then x else 0) + if i == b.key then y else 0
      {
        RecountedStep(t, u, a, b, pid, d, i);
      }
      MarkTotal(deltas, a.key, b.key, x, y);
    }
  }

  lemma {:induction false} MarksBefore(m: Mark, t: Trace, pid: uint32)
    requires t != Start
    ensures MarksSample(m, t, pid) ==> MarksSample(m, t.before, pid) && (m.at == Length(t) ==> Continues(t, pid, m.key))
  {
    hide FirstRows;
    assert Within(t, t);
    if MarksSample(m, t, pid) {
      forall v | Within(v, t.before) && Length(v) == m.at ensures Continues(v, pid, m.key) {
        assert Within(v, t);
      }
    }
  }

  /** The delta of one key in one step. */
  lemma {:induction false} RecountedStep(t: Trace, u: Trace, a: Mark, b: Mark, pid: uint32, d: Direction, i: string)
    requires t != Start && u == Recounted(t, a, b)
    ensures u != Start
    ensures var deltas := StepDeltas(PriorRows(u), LastRows(u), pid, d);
      && (i in deltas <==> Continues(t, pid, i))
      && (i in deltas ==>
        deltas[i] == (if i == a.key then One(a.at == Length(t)) else 0) + if i == b.key then One(b.at == Length(t))
          else 0)
  {
    hide FirstRows, RecountRows;
    RecountedSchedule(t, a, b);
    SampleSchedule(t, u, pid, i);
    DeltasOf(u, pid, d, i);
    PriorIsLast(u);
    if Continues(t, pid, i) {
      RecountedBytes(t, u, a, b, d);
      RecountedBytes(t.before, u.before, a, b, d);
      assert i in LastRows(u) && i in LastRows(u.before);
    }
  }

  lemma {:induction false} RecountedWithin(v: Trace, t: Trace, a: Mark, b: Mark)
    requires Within(v, t)
    ensures Within(Recounted(v, a, b), Recounted(t, a, b))
  {
    hide RecountRows;
    if v != t {
      RecountedWithin(v, t.before, a, b);
    }
  }

  lemma {:induction false} RecountedPart(x: Trace, t: Trace, u: Trace, a: Mark, b: Mark) returns (v: Trace)
    requires u == Recounted(t, a, b) && Within(x, u)
    ensures Within(v, t) && x == Recounted(v, a, b)
    decreases t
  {
    hide RecountRows;
    if x == u {
      v := t;
    } else {
      v := RecountedPart(x, t.before, u.before, a, b);
    }
  }

  /** A mark that a session passed is at one of its samples. */
  lemma {:induction false} MarkInSession(w: Trace, v: Trace, t: Trace, pid: uint32, k: string)
    requires Within(w, t) && Within(v, t) && Continues(v, pid, k) && Opening(v, k) < Length(w) <= Length(v)
    ensures Within(w, v) && Continues(w, pid, k) && SameSession(w, k, v, k)
  {
    hide FirstRows, Opening;
    WithinOrdered(w, v, t);
    SessionSpans(w, v, pid, k);
  }

  lemma {:induction false} OnlySample(v: Trace, t: Trace, pid: uint32, k: string)
    requires Within(v, t) && Continues(v, pid, k)
    ensures MarksSample(Mark(k, Length(v)), t, pid)
  {
    hide Within, Continues;
    forall x | Within(x, t) && Length(x) == Length(v) ensures Continues(x, pid, k) {
      WithinUnique(x, v, t);
    }
  }

  // ----- Rows for examples

  function Sample(c: Connection, sent: uint64): TransferSnapshot {
    TransferSnapshot(c, sent, 0, "p")
  }

  lemma {:induction false} OneRow(row: TransferSnapshot)
    ensures FirstRows([row]) == map[Key(row.connection) := row]
  {
    hide Key;
    assert [row][..0] == [];
    assert FirstRows([]) == map[];
  }
}
