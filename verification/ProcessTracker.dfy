/** ProcessTracker: diffs consecutive process snapshots into CREATED and TERMINATED events. */
module ProcessTracker {
  import opened Model

  /** Of the rows with one PID the first counts, and it counts as running. */
  function Deduplicated(rows: seq<ProcessInfo>): (m: map<uint32, ProcessInfo>)
    ensures forall pid | pid in m :: m[pid].processId == pid && m[pid].status == RUNNING
    ensures forall pid :: pid in m <==> exists i | 0 <= i < |rows| :: rows[i].processId == pid
  {
    if rows == [] then map[] else
      var m := Deduplicated(rows[..|rows| - 1]);
      var row := rows[|rows| - 1];
      assert rows == rows[..|rows| - 1] + [row];
      assert forall i | 0 <= i < |rows| - 1 :: rows[i] == rows[..|rows| - 1][i];
      if row.processId in m then m else m[row.processId := row.(status := RUNNING)]
  }

  /** No earlier row has the PID of row `i`. */
  ghost predicate IsFirst(rows: seq<ProcessInfo>, i: int) {
    0 <= i < |rows| && forall j | 0 <= j < i :: rows[j].processId != rows[i].processId
  }

  ghost predicate Lists(rows: seq<ProcessInfo>, pid: uint32) {
    exists i | 0 <= i < |rows| :: rows[i].processId == pid
  }

  /** The first row of a PID is what is tracked of it, all of it but for the status. */
  lemma {:induction false} FirstRowIsTracked(rows: seq<ProcessInfo>, i: nat)
    requires IsFirst(rows, i)
    ensures rows[i].processId in Deduplicated(rows)
    ensures Deduplicated(rows)[rows[i].processId] == rows[i].(status := RUNNING)
  {
    var front := rows[..|rows| - 1];
    if i < |front| {
      FirstRowIsTracked(front, i);
    }
  }

  lemma {:induction false} FirstRowOf(rows: seq<ProcessInfo>, pid: uint32) returns (i: nat)
    requires Lists(rows, pid)
    ensures IsFirst(rows, i) && rows[i].processId == pid
  {
    i := 0;
    while rows[i].processId != pid
      invariant i < |rows|
      invariant forall j | 0 <= j < i :: rows[j].processId != pid
      decreases |rows| - i
    {
      i := i + 1;
    }
  }

  /** Every PID of a snapshot is tracked as its first row there. */
  lemma {:induction false} TrackedRow(rows: seq<ProcessInfo>, pid: uint32) returns (i: nat)
    requires pid in Deduplicated(rows)
    ensures IsFirst(rows, i) && rows[i].processId == pid && Deduplicated(rows)[pid] == rows[i].(status := RUNNING)
  {
    hide Deduplicated;
    assert Lists(rows, pid);
    i := FirstRowOf(rows, pid);
    FirstRowIsTracked(rows, i);
  }

  /** The event a difference between two snapshots calls for. */
  predicate Reports(e: ProcessEvent, prev: map<uint32, ProcessInfo>, next: map<uint32, ProcessInfo>, now: Time) {
    var pid := e.processInfo.processId;
    && e.timestamp == now
    && if e.eventType == PROCESS_CREATED then pid in next && pid !in prev && e.processInfo == next[pid]
      else pid in prev && pid !in next && e.processInfo == prev[pid].(status := TERMINATED)
  }

  ghost predicate Mentions(events: seq<ProcessEvent>, pid: uint32) {
    exists e :: e in events && e.processInfo.processId == pid
  }

  /** `events` is the difference of two snapshots: every difference once, in some order. */
  ghost predicate IsDiff(events: seq<ProcessEvent>, prev: map<uint32, ProcessInfo>, next: map<uint32, ProcessInfo>,
      now: Time) {
    && (forall e | e in events :: Reports(e, prev, next, now))
    && (forall pid | (pid in prev) != (pid in next) :: Mentions(events, pid))
    && forall i, j | 0 <= i < j < |events| :: events[i].processInfo.processId != events[j].processInfo.processId
  }

  /** Some PID's first row in `from`, with this status; `other` does not list the PID. */
  ghost predicate IsRowOf(info: ProcessInfo, from: seq<ProcessInfo>, other: seq<ProcessInfo>, status: ProcessStatus) {
    && !Lists(other, info.processId)
    && exists i :: IsFirst(from, i) && info == from[i].(status := status)
  }

  /** The event tells a row: a creation the first row of its PID in the later snapshot, a PID that the
  earlier one does not list, as running; a termination the other way round, as terminated. */
  ghost predicate TellsRow(e: ProcessEvent, before: seq<ProcessInfo>, after: seq<ProcessInfo>, now: Time) {
    && e.timestamp == now
    && if e.eventType == PROCESS_CREATED then IsRowOf(e.processInfo, after, before, RUNNING)
      else IsRowOf(e.processInfo, before, after, TERMINATED)
  }

  /** The difference of two snapshots is told row by row. */
  lemma {:induction false} EventsTellRows(events: seq<ProcessEvent>, before: seq<ProcessInfo>, after: seq<ProcessInfo>,
      now: Time)
    requires IsDiff(events, Deduplicated(before), Deduplicated(after), now)
    ensures forall e | e in events :: TellsRow(e, before, after, now)
    ensures forall pid: uint32 | Lists(before, pid) != Lists(after, pid) :: Mentions(events, pid)
  {
    hide Deduplicated;
    forall e | e in events ensures TellsRow(e, before, after, now) {
      assert Reports(e, Deduplicated(before), Deduplicated(after), now);
      if e.eventType == PROCESS_CREATED {
        var i := TrackedRow(after, e.processInfo.processId);
        assert IsRowOf(e.processInfo, after, before, RUNNING);
      } else {
        var i := TrackedRow(before, e.processInfo.processId);
        assert IsFirst(before, i) && e.processInfo == before[i].(status := TERMINATED);
      }
    }
  }

  class ProcessTracker {
    var trackedProcesses: map<uint32, ProcessInfo>
    var seeded: bool

    ghost predicate Valid()
      reads this
    {
      forall pid | pid in trackedProcesses :: trackedProcesses[pid].processId == pid
    }

    constructor ()
      ensures Valid() && trackedProcesses.Keys == {} && !seeded
    {
      trackedProcesses, seeded := map[], false;
    }

    method Reset()
      modifies this
      ensures Valid() && trackedProcesses.Keys == {} && !seeded
    {
      trackedProcesses, seeded := map[], false;
    }

    method Update(currentProcesses: seq<ProcessInfo>, now: Time) returns (events: seq<ProcessEvent>)
      requires Valid()
      modifies this
      ensures Valid() && seeded && trackedProcesses == Deduplicated(currentProcesses)
      ensures forall i | IsFirst(currentProcesses, i) ::
        trackedProcesses[currentProcesses[i].processId] == currentProcesses[i].(status := RUNNING)
      ensures if old(seeded) then IsDiff(events, old(trackedProcesses), trackedProcesses, now) else events == []
    {
      forall i | IsFirst(currentProcesses, i)
        ensures Deduplicated(currentProcesses)[currentProcesses[i].processId] == currentProcesses[i].(status := RUNNING)
      {
        FirstRowIsTracked(currentProcesses, i);
      }
      var nextTracked: map<uint32, ProcessInfo> := map[];
      assert currentProcesses[..0] == [];
      for i := 0 to |currentProcesses|
        invariant nextTracked == Deduplicated(currentProcesses[..i])
      {
        assert currentProcesses[..i + 1][..i] == currentProcesses[..i];
        var row := currentProcesses[i];
        if row.processId !in nextTracked {
          nextTracked := nextTracked[row.processId := row.(status := RUNNING)];
        }
      }
      assert currentProcesses[..|currentProcesses|] == currentProcesses;
      hide Deduplicated;
      if !seeded {
        trackedProcesses, seeded := nextTracked, true;
        return [];
      }
      var created := Differences(nextTracked, trackedProcesses, PROCESS_CREATED, now);
      var terminated := Differences(trackedProcesses, nextTracked, PROCESS_TERMINATED, now);
      BothDifferences(created, terminated, trackedProcesses, nextTracked, now);
      events := created + terminated;
      trackedProcesses := nextTracked;
    }
  }

  /** One event for every PID of `from` that `other` lacks, in map order. */
  method Differences(from: map<uint32, ProcessInfo>, other: map<uint32, ProcessInfo>, eventType: ProcessEventType,
      now: Time)
    returns (events: seq<ProcessEvent>)
    requires forall pid | pid in from :: from[pid].processId == pid
    ensures forall e | e in events :: var pid := e.processInfo.processId;
      && e.timestamp == now && e.eventType == eventType && pid in from && pid !in other
      && e.processInfo == if eventType == PROCESS_TERMINATED then from[pid].(status := TERMINATED) else from[pid]
    ensures forall pid | pid in from && pid !in other :: Mentions(events, pid)
    ensures forall i, j | 0 <= i < j < |events| :: events[i].processInfo.processId != events[j].processInfo.processId
  {
    events := [];
    var keys := from.Keys;
    while keys != {}
      invariant keys <= from.Keys
      invariant forall e | e in events :: var pid := e.processInfo.processId;
        && e.timestamp == now && e.eventType == eventType && pid in from.Keys - keys && pid !in other
        && e.processInfo == if eventType == PROCESS_TERMINATED then from[pid].(status := TERMINATED) else from[pid]
      invariant forall pid | pid in from && pid !in keys && pid !in other :: Mentions(events, pid)
      invariant forall i, j | 0 <= i < j < |events| ::
        events[i].processInfo.processId != events[j].processInfo.processId
    {
      var pid :| pid in keys;
      keys := keys - {pid};
      if pid !in other {
        ghost var was := events;
        var info := if eventType == PROCESS_TERMINATED then from[pid].(status := TERMINATED) else from[pid];
        events := events + [ProcessEvent(eventType, info, now)];
        assert events[|was|] in events;
        forall q | Mentions(was, q) ensures Mentions(events, q) {
          var d :| d in was && d.processInfo.processId == q;
          assert d in events;
        }
        assert forall i | 0 <= i < |was| :: was[i] in was;
      }
    }
  }

  lemma {:induction false} BothDifferences(created: seq<ProcessEvent>, terminated: seq<ProcessEvent>,
      prev: map<uint32, ProcessInfo>, next: map<uint32, ProcessInfo>, now: Time)
    requires forall e | e in created :: e.eventType == PROCESS_CREATED && Reports(e, prev, next, now)
    requires forall e | e in terminated :: e.eventType == PROCESS_TERMINATED && Reports(e, prev, next, now)
    requires forall pid | pid in next && pid !in prev :: Mentions(created, pid)
    requires forall pid | pid in prev && pid !in next :: Mentions(terminated, pid)
    requires forall i, j | 0 <= i < j < |created| ::
      created[i].processInfo.processId != created[j].processInfo.processId
    requires forall i, j | 0 <= i < j < |terminated| ::
      terminated[i].processInfo.processId != terminated[j].processInfo.processId
    ensures IsDiff(created + terminated, prev, next, now)
  {
    var events := created + terminated;
    forall pid | (pid in prev) != (pid in next) ensures Mentions(events, pid) {
      var part := if pid in next then created else terminated;
      assert Mentions(part, pid);
      var e :| e in part && e.processInfo.processId == pid;
      assert e in events;
    }
    forall i, j | 0 <= i < j < |events| ensures events[i].processInfo.processId != events[j].processInfo.processId {
      if i < |created| <= j {
        assert events[i] in created && events[j] in terminated;
      }
    }
  }
}
