/** What the deltas mean.  Between two readings a counter may have grown and restarted from zero any number
of times; the bytes that the trackers count for a session, and those they report for a process, are the
least traffic that explains all readings. */
module LeastTraffic {
  import opened Model
  import opened FiniteSums
  import opened TransferAccounting
  import opened TransferTheorems

  // ----- Two readings

  /** The delta is the least traffic between two readings: no history of the counter transferred less, and
  one transferred as much. */
  lemma {:induction false} DeltaIsLeast(counter: uint64, next: uint64)
    ensures forall acts | next == CounterAfter(counter, acts) :: Delta(counter, next) <= Transferred(acts)
    ensures exists acts :: next == CounterAfter(counter, acts) && Transferred(acts) == Delta(counter, next)
  {
    forall acts | next == CounterAfter(counter, acts) ensures Delta(counter, next) <= Transferred(acts) {
      DeltaNeverOvercounts(counter, acts, next);
    }
    var acts := LeastHistory(counter, next);
  }

  /** Growth explains a reading that did not go down, a restart one that did. */
  lemma {:induction false} LeastHistory(counter: uint64, next: uint64) returns (acts: seq<Activity>)
    ensures next == CounterAfter(counter, acts) && Transferred(acts) == Delta(counter, next)
  {
    if next >= counter {
      acts := [Transfer(next - counter)];
      assert acts[..0] == [];
    } else {
      acts := [Reset, Transfer(next)];
      assert acts[..1] == [Reset] && [Reset][..0] == [];
    }
  }

  // ----- One session

  /** A session's bytes are the least traffic that explains its readings. */
  lemma {:induction false} SessionIsLeast(trace: Trace, k: string, d: Direction)
    requires k in LastRows(trace)
    ensures forall acts | Explains(acts, trace, k, d) :: SessionBytes(trace, k, d) <= SessionTraffic(acts, trace, k)
    ensures exists acts :: Explains(acts, trace, k, d) && SessionTraffic(acts, trace, k) == SessionBytes(trace, k, d)
  {
    hide FirstRows;
    forall acts | Explains(acts, trace, k, d) ensures SessionBytes(trace, k, d) <= SessionTraffic(acts, trace, k) {
      NeverOvercounts(acts, trace, k, d);
    }
    var acts := LeastSession(trace, k, d);
  }

  lemma {:induction false} LeastSession(trace: Trace, k: string, d: Direction) returns (acts: seq<seq<Activity>>)
    requires k in LastRows(trace)
    ensures Explains(acts, trace, k, d) && SessionTraffic(acts, trace, k) == SessionBytes(trace, k, d)
    decreases trace
  {
    hide FirstRows, Delta, CounterAfter, Transferred;
    if k in PriorRows(trace) {
      var front := LeastSession(trace.before, k, d);
      var last := LeastHistory(PriorRows(trace)[k].Bytes(d), LastRows(trace)[k].Bytes(d));
      acts := front + [last];
      assert acts[..|acts| - 1] == front;
    } else {
      acts := [];
    }
  }

  // ----- One process

  /** What happened to the counters of a process between two consecutive calls of `update`, by key. */
  type Step = map<string, seq<Activity>>

  ghost predicate ExplainsStep(step: Step, trace: Trace, pid: uint32, d: Direction) {
    && (forall k :: k in step <==>
      k in PriorRows(trace) && k in LastRows(trace) && LastRows(trace)[k].connection.processId == pid)
    && forall k | k in step :: LastRows(trace)[k].Bytes(d) == CounterAfter(PriorRows(trace)[k].Bytes(d), step[k])
  }

  /** One entry a call of `update`. */
  ghost predicate ExplainsProcess(steps: seq<Step>, trace: Trace, pid: uint32, d: Direction) {
    if trace == Start then steps == []
    else
      && steps != []
      && ExplainsStep(steps[|steps| - 1], trace, pid, d)
      && ExplainsProcess(steps[..|steps| - 1], trace.before, pid, d)
  }

  ghost function Moved(step: Step): map<string, nat> {
    map k | k in step :: Transferred(step[k])
  }

  ghost function ProcessTraffic(steps: seq<Step>): nat {
    if steps == [] then 0 else ProcessTraffic(steps[..|steps| - 1]) + Total(Moved(steps[|steps| - 1]))
  }

  /** A smaller sum. */
  lemma {:induction false} TotalAtMost(m: map<string, nat>, n: map<string, nat>)
    requires m.Keys == n.Keys && forall k | k in m :: m[k] <= n[k]
    ensures Total(m) <= Total(n)
  {
    hide Total;
    TotalPlus(n, m, map k | k in n :: n[k] - m[k]);
  }

  lemma {:induction false} StepIsLeast(step: Step, trace: Trace, pid: uint32, d: Direction)
    requires trace != Start && ExplainsStep(step, trace, pid, d)
    ensures Total(StepDeltas(PriorRows(trace), LastRows(trace), pid, d)) <= Total(Moved(step))
  {
    hide FirstRows, Total, Delta, CounterAfter, Transferred;
    var deltas := StepDeltas(PriorRows(trace), LastRows(trace), pid, d);
    forall k | k in deltas ensures deltas[k] <= Moved(step)[k] {
      DeltaNeverOvercounts(PriorRows(trace)[k].Bytes(d), step[k], LastRows(trace)[k].Bytes(d));
    }
    assert deltas.Keys == Moved(step).Keys;
    TotalAtMost(deltas, Moved(step));
  }

  lemma {:induction false} LeastStep(trace: Trace, pid: uint32, d: Direction) returns (step: Step)
    requires trace != Start
    ensures ExplainsStep(step, trace, pid, d)
    ensures Moved(step) == StepDeltas(PriorRows(trace), LastRows(trace), pid, d)
  {
    hide FirstRows, Delta, CounterAfter, Transferred;
    var prior, last := PriorRows(trace), LastRows(trace);
    var deltas := StepDeltas(prior, last, pid, d);
    forall k | k in deltas
      ensures exists acts :: last[k].Bytes(d) == CounterAfter(prior[k].Bytes(d), acts) && Transferred(acts) == deltas[k]
    {
      var acts := LeastHistory(prior[k].Bytes(d), last[k].Bytes(d));
    }
    step := map k | k in deltas ::
      var acts :| last[k].Bytes(d) == CounterAfter(prior[k].Bytes(d), acts) && Transferred(acts) == deltas[k]; acts;
  }

  lemma {:induction false} ProcessAtLeast(steps: seq<Step>, trace: Trace, pid: uint32, d: Direction)
    requires ExplainsProcess(steps, trace, pid, d)
    ensures TraceBytes(trace, pid, d) <= ProcessTraffic(steps)
    decreases trace
  {
    hide FirstRows, Total, StepDeltas, Moved, ExplainsStep;
    if trace != Start {
      ProcessAtLeast(steps[..|steps| - 1], trace.before, pid, d);
      StepIsLeast(steps[|steps| - 1], trace, pid, d);
    }
  }

  lemma {:induction false} LeastProcess(trace: Trace, pid: uint32, d: Direction) returns (steps: seq<Step>)
    ensures ExplainsProcess(steps, trace, pid, d) && ProcessTraffic(steps) == TraceBytes(trace, pid, d)
    decreases trace
  {
    hide FirstRows, Total, StepDeltas, Moved, ExplainsStep;
    if trace == Start {
      steps := [];
    } else {
      var front := LeastProcess(trace.before, pid, d);
      var last := LeastStep(trace, pid, d);
      steps := front + [last];
      assert steps[..|steps| - 1] == front;
    }
  }

  /** What a process is reported to have transferred is, modulo 2^64, the least traffic that explains the
  readings of all its counters, through any closing and reopening. */
  lemma {:induction false} ReportedIsLeastTraffic(trace: Trace, pid: uint32, d: Direction)
    ensures exists steps ::
      && ExplainsProcess(steps, trace, pid, d)
      && Reported(trace, pid, d) == Wrap(ProcessTraffic(steps))
      && forall other | ExplainsProcess(other, trace, pid, d) :: ProcessTraffic(steps) <= ProcessTraffic(other)
  {
    hide ExplainsProcess, ProcessTraffic, TraceBytes, Reported, Wrap;
    var steps := LeastProcess(trace, pid, d);
    TraceRefinement(trace, pid, d);
    forall other | ExplainsProcess(other, trace, pid, d) ensures ProcessTraffic(steps) <= ProcessTraffic(other) {
      ProcessAtLeast(other, trace, pid, d);
    }
  }
}
