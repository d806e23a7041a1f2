/** ConnectionAttributor: the cache of last known processes, fed by ProcessTracker, and the
attribution of connections to it. */
module ConnectionAttributor {
  import opened Model
  import IdentityKey
  import opened ProcessTracker
  import C = ConnectionTracker

  // ----- Synchronising the cache

  /** The cache after refreshing the active processes outside `rest`. */
  ghost function Refreshed(cache: map<uint32, ProcessInfo>, active: map<uint32, ProcessInfo>,
      rest: set<uint32>): map<uint32, ProcessInfo> {
    map pid | pid in cache.Keys + (active.Keys - rest) ::
      if pid in active && pid !in rest then active[pid].(status := RUNNING) else cache[pid]
  }

  function Entry(e: ProcessEvent): ProcessInfo {
    if e.eventType == PROCESS_TERMINATED then e.processInfo.(status := TERMINATED) else e.processInfo
  }

  function Applied(cache: map<uint32, ProcessInfo>, events: seq<ProcessEvent>): map<uint32, ProcessInfo> {
    if events == [] then cache else
      var p := Entry(events[|events| - 1]);
      Applied(cache, events[..|events| - 1])[p.processId := p]
  }

  ghost function Synced(cache: map<uint32, ProcessInfo>, active: map<uint32, ProcessInfo>,
      events: seq<ProcessEvent>): map<uint32, ProcessInfo> {
    Applied(Refreshed(cache, active, {}), events)
  }

  /** If all events of a PID say the same, their order does not matter. */
  lemma {:induction false} AppliedAt(cache: map<uint32, ProcessInfo>, events: seq<ProcessEvent>, pid: uint32,
      p: ProcessInfo)
    requires forall e | e in events && e.processInfo.processId == pid :: Entry(e) == p
    ensures pid in Applied(cache, events) <==> pid in cache || Mentions(events, pid)
    ensures Mentions(events, pid) ==> Applied(cache, events)[pid] == p
    ensures !Mentions(events, pid) && pid in cache ==> Applied(cache, events)[pid] == cache[pid]
  {
    if events != [] {
      var front, e := events[..|events| - 1], events[|events| - 1];
      assert events == front + [e];
      AppliedAt(cache, front, pid, p);
      if Mentions(front, pid) {
        var f :| f in front && f.processInfo.processId == pid;
        assert f in events;
      }
      assert e in events;
    }
  }

  /** What a tracker's difference makes of the cache, PID by PID. */
  lemma {:induction false} SyncedAt(cache: map<uint32, ProcessInfo>, prev: map<uint32, ProcessInfo>,
      next: map<uint32, ProcessInfo>, events: seq<ProcessEvent>, now: Time, pid: uint32)
    requires IsDiff(events, prev, next, now)
    requires forall q | q in next :: next[q].processId == q && next[q].status == RUNNING
    requires forall q | q in prev :: prev[q].processId == q
    ensures var synced := Synced(cache, next, events);
      && (pid in synced <==> pid in cache || pid in prev || pid in next)
      && (pid in next ==> synced[pid] == next[pid])
      && (pid in prev && pid !in next ==> synced[pid] == prev[pid].(status := TERMINATED))
      && (pid in cache && pid !in prev && pid !in next ==> synced[pid] == cache[pid])
  {
    hide Applied;
    var mid := Refreshed(cache, next, {});
    if pid in next {
      AppliedAt(mid, events, pid, next[pid]);
    } else if pid in prev {
      AppliedAt(mid, events, pid, prev[pid].(status := TERMINATED));
      assert Mentions(events, pid);
    } else {
      assert !Mentions(events, pid);
      AppliedAt(mid, events, pid, ProcessInfo(pid, "", 0, RUNNING));
    }
  }

  lemma {:induction false} SyncedSilently(cache: map<uint32, ProcessInfo>, next: map<uint32, ProcessInfo>, pid: uint32)
    requires forall q | q in next :: next[q].status == RUNNING
    ensures var synced := Synced(cache, next, []);
      && (pid in synced <==> pid in cache || pid in next)
      && (pid in next ==> synced[pid] == next[pid])
      && (pid in cache && pid !in next ==> synced[pid] == cache[pid])
  {
  }

  // ----- Runs

  /** Every update of the tracker, each followed by a synchronisation, and every reset of the tracker
  (`Restarted`) or of the attributor (`Forgotten`) alone, latest outermost. */
  datatype Lifecycle =
    | Begin
    | Observed(before: Lifecycle, processes: seq<ProcessInfo>, now: Time, events: seq<ProcessEvent>)
    | Restarted(before: Lifecycle)
    | Forgotten(before: Lifecycle)

  function Tracked(run: Lifecycle): map<uint32, ProcessInfo> {
    match run
    case Observed(_, processes, _, _) => Deduplicated(processes)
    case Forgotten(before) => Tracked(before)
    case _ => map[]
  }

  predicate Seeded(run: Lifecycle) {
    match run
    case Observed(_, _, _, _) => true
    case Forgotten(before) => Seeded(before)
    case _ => false
  }

  /** The tracker's contract: silent after construction and reset, else the difference, in any order. */
  ghost predicate Legal(run: Lifecycle) {
    match run
    case Begin => true
    case Restarted(before) => Legal(before)
    case Forgotten(before) => Legal(before)
    case Observed(before, _, now, events) =>
      Legal(before) && if Seeded(before) then IsDiff(events, Tracked(before), Tracked(run), now) else events == []
  }

  ghost function Cached(run: Lifecycle): map<uint32, ProcessInfo> {
    match run
    case Begin => map[]
    case Restarted(before) => Cached(before)
    case Forgotten(_) => map[]
    case Observed(before, _, _, events) => Synced(Cached(before), Tracked(run), events)
  }

  ghost predicate EverTracked(run: Lifecycle, pid: uint32) {
    run != Begin && (pid in Tracked(run) || EverTracked(run.before, pid))
  }

  /** The PIDs that a snapshot since the attributor's last reset held, or the last one before it if
  the tracker still had it: with no such reset, every PID ever tracked (`KnownIffTracked`). */
  ghost predicate Known(run: Lifecycle, pid: uint32) {
    match run
    case Begin => false
    case Restarted(before) => Known(before, pid)
    case Forgotten(_) => false
    case Observed(before, _, _, _) => Known(before, pid) || pid in Tracked(before) || pid in Tracked(run)
  }

  /** The latest snapshot's record of a PID. */
  ghost function LastTracked(run: Lifecycle, pid: uint32): ProcessInfo
    requires EverTracked(run, pid)
  {
    if pid in Tracked(run) then Tracked(run)[pid] else LastTracked(run.before, pid)
  }

  /** The PIDs that were tracked when the tracker was reset and were not seen since: no event ever
  reports their end. */
  ghost predicate Orphaned(run: Lifecycle, pid: uint32) {
    match run
    case Begin => false
    case Restarted(before) => Orphaned(before, pid) || (Known(before, pid) && pid in Tracked(before))
    case Forgotten(_) => false
    case Observed(before, _, _, _) => Orphaned(before, pid) && pid !in Tracked(run)
  }

  lemma {:induction false} TrackedRecord(run: Lifecycle, pid: uint32)
    requires pid in Tracked(run)
    ensures Tracked(run)[pid].processId == pid && Tracked(run)[pid].status == RUNNING && Seeded(run)
  {
    hide Deduplicated;
    if run.Forgotten? {
      TrackedRecord(run.before, pid);
    }
  }

  lemma {:induction false} KnownWasTracked(run: Lifecycle, pid: uint32)
    requires Known(run, pid)
    ensures EverTracked(run, pid)
  {
    hide Deduplicated;
    if pid in Tracked(run) {
    } else if run.Observed? && pid in Tracked(run.before) {
      assert run.before != Begin;
      assert EverTracked(run.before, pid);
    } else {
      KnownWasTracked(run.before, pid);
    }
  }

  lemma {:induction false} OrphansAreKnown(run: Lifecycle, pid: uint32)
    requires Orphaned(run, pid)
    ensures Known(run, pid) && pid !in Tracked(run)
  {
    hide Deduplicated;
    if run.Observed? || Orphaned(run.before, pid) {
      OrphansAreKnown(run.before, pid);
    }
  }

  /** The cache holds exactly the known PIDs, each with the last snapshot's record of it, as running if
  it is tracked now (or orphaned by a reset) and as terminated otherwise, through any number of exits
  and reuses of a PID and whatever the order of the events. */
  lemma {:induction false} CacheIsHistory(run: Lifecycle, pid: uint32)
    requires Legal(run)
    ensures pid in Cached(run) <==> Known(run, pid)
    ensures Known(run, pid) ==> EverTracked(run, pid) && LastTracked(run, pid).status == RUNNING
    ensures Known(run, pid) ==>
      Cached(run)[pid] ==
        if pid in Tracked(run) || Orphaned(run, pid) then LastTracked(run, pid)
        else LastTracked(run, pid).(status := TERMINATED)
  {
    hide Deduplicated, Synced, IsDiff;
    if Known(run, pid) {
      KnownWasTracked(run, pid);
    }
    forall q: uint32 | q in Tracked(run) ensures Tracked(run)[q].processId == q && Tracked(run)[q].status == RUNNING {
      TrackedRecord(run, q);
    }
    match run
    case Begin =>
    case Forgotten(_) =>
    case Restarted(before) =>
      CacheIsHistory(before, pid);
      if Orphaned(before, pid) {
        OrphansAreKnown(before, pid);
      }
    case Observed(before, _, now, events) =>
      CacheIsHistory(before, pid);
      forall q: uint32 | q in Tracked(before)
        ensures Tracked(before)[q].processId == q && Tracked(before)[q].status == RUNNING && Seeded(before)
      {
        TrackedRecord(before, q);
      }
      if Orphaned(before, pid) {
        OrphansAreKnown(before, pid);
      }
      if Seeded(before) {
        SyncedAt(Cached(before), Tracked(before), Tracked(run), events, now, pid);
      } else {
        SyncedSilently(Cached(before), Tracked(run), pid);
      }
  }

  /** The attributor was not reset. */
  predicate NeverForgotten(run: Lifecycle) {
    match run
    case Begin => true
    case Forgotten(_) => false
    case Restarted(before) => NeverForgotten(before)
    case Observed(before, _, _, _) => NeverForgotten(before)
  }

  /** As long as the attributor is not reset, the cache's domain is every PID ever tracked. */
  lemma {:induction false} KnownIffTracked(run: Lifecycle, pid: uint32)
    requires NeverForgotten(run)
    ensures Known(run, pid) <==> EverTracked(run, pid)
  {
    hide Deduplicated;
    if Known(run, pid) {
      KnownWasTracked(run, pid);
    } else if run != Begin {
      KnownIffTracked(run.before, pid);
    }
  }

  ghost predicate MarkedRight(cache: map<uint32, ProcessInfo>, tracked: map<uint32, ProcessInfo>) {
    forall pid | pid in cache :: cache[pid].status == RUNNING <==> pid in tracked
  }

  ghost predicate HasOrphans(run: Lifecycle) {
    exists pid: uint32 :: Orphaned(run, pid)
  }

  /** A PID is marked running iff it is tracked now, for every PID, exactly when no reset of the
  tracker orphaned one. */
  lemma {:induction false} RunningIffTracked(run: Lifecycle)
    requires Legal(run)
    ensures MarkedRight(Cached(run), Tracked(run)) <==> !HasOrphans(run)
    ensures ResetFree(run) ==> !HasOrphans(run)
  {
    hide Deduplicated, Cached, EverTracked, LastTracked, Legal, Known;
    forall pid: uint32 | pid in Cached(run)
      ensures Cached(run)[pid].status == RUNNING <==> pid in Tracked(run) || Orphaned(run, pid)
    {
      CacheIsHistory(run, pid);
    }
    forall pid: uint32 | Orphaned(run, pid) ensures pid in Cached(run) && pid !in Tracked(run) && !ResetFree(run) {
      OrphansAreKnown(run, pid);
      CacheIsHistory(run, pid);
      if ResetFree(run) {
        NoOrphans(run, pid);
      }
    }
  }

  /** A reset of the tracker orphans what it tracked, until it is seen again: a process that runs, a
  reset, and the process is marked running while nothing tracks it; one more snapshot that holds it
  mends the mark, one that does not leaves it. */
  lemma {:induction false} ResetOrphans(p: ProcessInfo, now: Time)
    ensures var run := Restarted(Observed(Begin, [p], now, []));
      && Legal(run) && Orphaned(run, p.processId) && HasOrphans(run) && !MarkedRight(Cached(run), Tracked(run))
      && Legal(Observed(run, [p], now, [])) && !HasOrphans(Observed(run, [p], now, []))
      && Legal(Observed(run, [], now, [])) && HasOrphans(Observed(run, [], now, []))
      && !HasOrphans(Forgotten(run))
  {
    hide Cached, Deduplicated, IsDiff, Known, MarkedRight;
    OneProcess(p);
    var first := Observed(Begin, [p], now, []);
    var run := Restarted(first);
    var again, none := Observed(run, [p], now, []), Observed(run, [], now, []);
    FirstProcess(p, now);
    assert Tracked(run) == map[] && !Seeded(run) && Legal(run);
    forall pid: uint32 ensures Orphaned(run, pid) <==> pid == p.processId {
    }
    assert Legal(again) && Tracked(again) == Deduplicated([p]);
    assert Legal(none) && Tracked(none) == Deduplicated([]);
    forall pid: uint32 ensures !Orphaned(again, pid) && !Orphaned(Forgotten(run), pid) {
    }
    assert Orphaned(none, p.processId);
    RunningIffTracked(run);
  }

  lemma {:induction false} FirstProcess(p: ProcessInfo, now: Time)
    ensures var first := Observed(Begin, [p], now, []);
      && Legal(first) && Tracked(first) == Deduplicated([p])
      && forall pid: uint32 :: !Orphaned(first, pid) && (Known(first, pid) <==> pid == p.processId)
  {
    hide Deduplicated;
    OneProcess(p);
    assert Legal(Begin) && !Seeded(Begin) && Tracked(Begin) == map[];
    var first := Observed(Begin, [p], now, []);
    forall pid: uint32 ensures !Orphaned(first, pid) && (Known(first, pid) <==> pid == p.processId) {
      assert !Known(Begin, pid) && !Orphaned(Begin, pid);
      assert Known(first, pid) <==> Known(Begin, pid) || pid in Tracked(Begin) || pid in Tracked(first);
    }
  }

  lemma {:induction false} OneProcess(p: ProcessInfo)
    ensures Deduplicated([p]).Keys == {p.processId} && Deduplicated([]).Keys == {}
  {
    assert [p][0] == p;
  }

  /** The tracker was not reset. */
  predicate ResetFree(run: Lifecycle) {
    match run
    case Begin => true
    case Restarted(_) => false
    case Forgotten(before) => ResetFree(before)
    case Observed(before, _, _, _) => ResetFree(before)
  }

  lemma {:induction false} NoOrphans(run: Lifecycle, pid: uint32)
    requires ResetFree(run)
    ensures !Orphaned(run, pid)
  {
    hide Deduplicated;
    if run.Observed? {
      NoOrphans(run.before, pid);
    }
  }

  // ----- Attribution

  datatype AttributedConnection = AttributedConnection(
    connection: Connection,
    processInfo: ProcessInfo,
    hasProcessInfo: bool,
    processTerminated: bool)

  const NO_PROCESS := ProcessInfo(0, "", 0, RUNNING)

  function Attribute(cache: map<uint32, ProcessInfo>, c: Connection): AttributedConnection {
    if c.processId !in cache then AttributedConnection(c, NO_PROCESS, false, false)
    else AttributedConnection(c, cache[c.processId], true, cache[c.processId].status == TERMINATED)
  }

  /** The first row of every key, in the order of the snapshot. */
  function Distinct(rows: seq<Connection>): seq<Connection> {
    if rows == [] then [] else
      var front, c := rows[..|rows| - 1], rows[|rows| - 1];
      if IdentityKey.Key(c) in C.FirstConnections(front) then Distinct(front) else Distinct(front) + [c]
  }

  /** The rows of one process. */
  function Owned(rows: seq<AttributedConnection>, pid: uint32): seq<AttributedConnection> {
    if rows == [] then [] else
      var r := rows[|rows| - 1];
      Owned(rows[..|rows| - 1], pid) + if r.connection.processId == pid then [r] else []
  }

  ghost predicate Grouped(rows: seq<AttributedConnection>, groups: map<uint32, seq<AttributedConnection>>) {
    && (forall r | r in rows :: r.connection.processId in groups)
    && forall pid | pid in groups :: groups[pid] == Owned(rows, pid)
  }

  lemma {:induction false} NothingOwned(rows: seq<AttributedConnection>, pid: uint32)
    requires forall r | r in rows :: r.connection.processId != pid
    ensures Owned(rows, pid) == []
  {
    if rows != [] {
      assert rows == rows[..|rows| - 1] + [rows[|rows| - 1]];
      NothingOwned(rows[..|rows| - 1], pid);
    }
  }

  lemma {:induction false} GroupRow(rows: seq<AttributedConnection>, groups: map<uint32, seq<AttributedConnection>>,
      r: AttributedConnection)
    requires Grouped(rows, groups)
    ensures var pid := r.connection.processId;
      Grouped(rows + [r], groups[pid := (if pid in groups then groups[pid] else []) + [r]])
  {
    assert (rows + [r])[..|rows|] == rows;
    var pid := r.connection.processId;
    if pid !in groups {
      NothingOwned(rows, pid);
    }
  }

  /** On every legal run, attribution finds a process for exactly the known PIDs, with the last
  snapshot's record, and calls it terminated exactly when it is neither tracked now nor orphaned. */
  lemma {:induction false} AttributionFollowsTracking(run: Lifecycle, c: Connection)
    requires Legal(run)
    ensures var a, pid := Attribute(Cached(run), c), c.processId;
      && a.connection == c
      && (a.hasProcessInfo <==> Known(run, pid))
      && (a.processTerminated <==> Known(run, pid) && pid !in Tracked(run) && !Orphaned(run, pid))
      && (a.hasProcessInfo ==> EverTracked(run, pid) && a.processInfo.(status := RUNNING) == LastTracked(run, pid))
    ensures NeverForgotten(run) && ResetFree(run) ==>
      var a, pid := Attribute(Cached(run), c), c.processId;
      && (a.hasProcessInfo <==> EverTracked(run, pid))
      && (a.processTerminated <==> EverTracked(run, pid) && pid !in Tracked(run))
  {
    hide Deduplicated, Cached, EverTracked, LastTracked, Legal, Known, Orphaned;
    CacheIsHistory(run, c.processId);
    if NeverForgotten(run) && ResetFree(run) {
      NoOrphans(run, c.processId);
      KnownIffTracked(run, c.processId);
    }
  }

  /** `v` ends with the latest snapshot of the run that lists the PID. */
  ghost predicate SeenLast(v: Lifecycle, run: Lifecycle, pid: uint32) {
    && run != Begin
    && if run.Observed? && Lists(run.processes, pid) then v == run else SeenLast(v, run.before, pid)
  }

  /** The last record of a PID is its first row in the latest snapshot that lists it. */
  lemma {:induction false} LastRow(run: Lifecycle, pid: uint32) returns (v: Lifecycle, i: nat)
    requires EverTracked(run, pid)
    ensures SeenLast(v, run, pid) && v.Observed? && IsFirst(v.processes, i) && v.processes[i].processId == pid
    ensures LastTracked(run, pid) == v.processes[i].(status := RUNNING)
  {
    hide Deduplicated;
    if run.Observed? && pid in Tracked(run) {
      v := run;
      i := TrackedRow(run.processes, pid);
      assert Lists(run.processes, pid);
    } else {
      assert run.Forgotten? && pid in Tracked(run) ==> EverTracked(run.before, pid);
      v, i := LastRow(run.before, pid);
    }
  }

  /** Attribution shows the first row of the PID in the latest snapshot that lists it, marked as terminated
  exactly if it says so, and nothing for an unknown PID. */
  lemma {:induction false} AttributedRow(run: Lifecycle, c: Connection) returns (v: Lifecycle, i: int)
    requires Legal(run)
    ensures var a := Attribute(Cached(run), c);
      && a.connection == c
      && (!Known(run, c.processId) ==> a == AttributedConnection(c, ProcessInfo(0, "", 0, RUNNING), false, false))
      && (Known(run, c.processId) ==>
        && SeenLast(v, run, c.processId) && v.Observed? && IsFirst(v.processes, i)
        && v.processes[i].processId == c.processId
        && a.processInfo == v.processes[i].(status := if a.processTerminated then TERMINATED else RUNNING))
  {
    hide Deduplicated, Cached, LastTracked, Legal, Known, SeenLast;
    v, i := run, 0;
    CacheIsHistory(run, c.processId);
    if Known(run, c.processId) {
      v, i := LastRow(run, c.processId);
    }
  }

  /** `chosen` holds the rows at the places `at`, in the order of the snapshot. */
  ghost predicate Chooses(at: seq<nat>, rows: seq<Connection>, chosen: seq<Connection>) {
    && |chosen| == |at|
    && (forall i, j | 0 <= i < j < |at| :: at[i] < at[j])
    && forall j | 0 <= j < |at| :: at[j] < |rows| && chosen[j] == rows[at[j]]
  }

  lemma {:induction false} ChooseMore(at: seq<nat>, rows: seq<Connection>, chosen: seq<Connection>, c: Connection)
    requires Chooses(at, rows, chosen)
    ensures Chooses(at, rows + [c], chosen) && Chooses(at + [|rows|], rows + [c], chosen + [c])
  {
  }

  /** The attributed rows are the first rows of their keys, all of them, in the order of the snapshot. */
  lemma {:induction false} DistinctRows(rows: seq<Connection>) returns (at: seq<nat>)
    ensures Chooses(at, rows, Distinct(rows))
    ensures forall i: nat :: i in at <==> C.IsFirst(rows, i)
  {
    hide IdentityKey.Key, C.FirstConnections, C.IsFirst, Chooses;
    if rows == [] {
      at := [];
      assert Chooses(at, rows, []) by { NothingChosen(); }
    } else {
      var front, c := rows[..|rows| - 1], rows[|rows| - 1];
      assert rows == front + [c];
      var before := DistinctRows(front);
      ChooseMore(before, front, Distinct(front), c);
      at := if IdentityKey.Key(c) in C.FirstConnections(front) then before else before + [|front|];
    }
    forall i: nat ensures i in at <==> C.IsFirst(rows, i) {
      FirstInFront(rows, i);
    }
  }

  lemma {:induction false} NothingChosen()
    ensures Chooses([], [], [])
  {
  }

  lemma {:induction false} FirstInFront(rows: seq<Connection>, i: nat)
    ensures C.IsFirst(rows, i) ==> rows != []
    ensures rows != [] ==>
      var front, c := rows[..|rows| - 1], rows[|rows| - 1];
      C.IsFirst(rows, i) <==>
        C.IsFirst(front, i) || (i == |front| && IdentityKey.Key(c) !in C.FirstConnections(front))
  {
    hide IdentityKey.Key, C.FirstConnections;
    if rows != [] {
      C.KeysOfRows(rows[..|rows| - 1], IdentityKey.Key(rows[|rows| - 1]));
    }
  }

  class ConnectionAttributor {
    var processCache: map<uint32, ProcessInfo>
    var connectionsByProcess: map<uint32, seq<AttributedConnection>>
    var attributedConnections: map<string, AttributedConnection>

    constructor ()
      ensures processCache.Keys == {} && connectionsByProcess.Keys == {} && attributedConnections.Keys == {}
    {
      processCache, connectionsByProcess, attributedConnections := map[], map[], map[];
    }

    method Reset()
      modifies this
      ensures processCache.Keys == {} && connectionsByProcess.Keys == {} && attributedConnections.Keys == {}
    {
      processCache, connectionsByProcess, attributedConnections := map[], map[], map[];
    }

    method SyncProcesses(activeProcesses: map<uint32, ProcessInfo>, processEvents: seq<ProcessEvent>)
      modifies `processCache
      ensures processCache == Synced(old(processCache), activeProcesses, processEvents)
    {
      ghost var was := processCache;
      var rest := activeProcesses.Keys;
      while rest != {}
        invariant rest <= activeProcesses.Keys
        invariant processCache == Refreshed(was, activeProcesses, rest)
      {
        var pid :| pid in rest;
        rest := rest - {pid};
        processCache := processCache[pid := activeProcesses[pid].(status := RUNNING)];
      }
      ghost var refreshed := processCache;
      assert processEvents[..0] == [];
      for i := 0 to |processEvents|
        invariant processCache == Applied(refreshed, processEvents[..i])
      {
        assert processEvents[..i + 1][..i] == processEvents[..i];
        var event := processEvents[i];
        var cachedProcess := event.processInfo;
        if event.eventType == PROCESS_TERMINATED {
          cachedProcess := cachedProcess.(status := TERMINATED);
        }
        processCache := processCache[cachedProcess.processId := cachedProcess];
      }
      assert processEvents[..|processEvents|] == processEvents;
    }

    function GetLastKnownProcess(pid: uint32): Option<ProcessInfo>
      reads this
    {
      if pid in processCache then Some(processCache[pid]) else None
    }

    /** One result for every key of the snapshot, in its order; the maps hold the same results by
    process and by key. */
    method AttributeAll(connections: seq<Connection>) returns (attributed: seq<AttributedConnection>)
      modifies `connectionsByProcess, `attributedConnections
      ensures |attributed| == |Distinct(connections)|
      ensures forall i | 0 <= i < |attributed| :: attributed[i] == Attribute(processCache, Distinct(connections)[i])
      ensures Grouped(attributed, connectionsByProcess)
      ensures attributedConnections.Keys == C.FirstConnections(connections).Keys
      ensures forall k | k in attributedConnections ::
        attributedConnections[k] == Attribute(processCache, C.FirstConnections(connections)[k])
    {
      hide IdentityKey.Key, Grouped, Attribute, Owned;
      attributed := [];
      var nextByProcess: map<uint32, seq<AttributedConnection>> := map[];
      var nextAttributed: map<string, AttributedConnection> := map[];
      var seen: set<string> := {};
      assert connections[..0] == [];
      assert Grouped(attributed, nextByProcess) by { NothingGrouped(); }
      for i := 0 to |connections|
        invariant seen == C.FirstConnections(connections[..i]).Keys == nextAttributed.Keys
        invariant |attributed| == |Distinct(connections[..i])|
        invariant forall j | 0 <= j < |attributed| ::
          attributed[j] == Attribute(processCache, Distinct(connections[..i])[j])
        invariant Grouped(attributed, nextByProcess)
        invariant forall k | k in nextAttributed ::
          nextAttributed[k] == Attribute(processCache, C.FirstConnections(connections[..i])[k])
      {
        assert connections[..i + 1][..i] == connections[..i];
        var connection := connections[i];
        var key := IdentityKey.Key(connection);
        if key !in seen {
          seen := seen + {key};
          var a := Attribute(processCache, connection);
          AttributedTo(processCache, connection);
          GroupRow(attributed, nextByProcess, a);
          var pid := connection.processId;
          nextByProcess := nextByProcess[pid := (if pid in nextByProcess then nextByProcess[pid] else []) + [a]];
          nextAttributed := nextAttributed[key := a];
          attributed := attributed + [a];
        }
      }
      assert connections[..|connections|] == connections;
      connectionsByProcess := nextByProcess;
      attributedConnections := nextAttributed;
    }
  }

  lemma {:induction false} NothingGrouped()
    ensures Grouped([], map[])
  {
  }

  lemma {:induction false} AttributedTo(cache: map<uint32, ProcessInfo>, c: Connection)
    ensures Attribute(cache, c).connection == c
  {
  }

  // ----- Tracker and attributor together

  /** The two objects are where the run has brought them. */
  ghost predicate Follows(tracker: ProcessTracker, attributor: ConnectionAttributor, run: Lifecycle)
    reads tracker, attributor
  {
    && Legal(run) && tracker.Valid()
    && tracker.seeded == Seeded(run) && tracker.trackedProcesses == Tracked(run)
    && attributor.processCache == Cached(run)
  }

  /** One monitoring cycle: an update, followed by a synchronisation with its results. */
  method Cycle(tracker: ProcessTracker, attributor: ConnectionAttributor, processes: seq<ProcessInfo>, now: Time,
      ghost run: Lifecycle)
    returns (events: seq<ProcessEvent>)
    requires Follows(tracker, attributor, run)
    modifies tracker, attributor
    ensures Follows(tracker, attributor, Observed(run, processes, now, events))
    ensures ResetFree(run) ==> forall pid | pid in attributor.processCache ::
      attributor.processCache[pid].status == RUNNING <==> pid in tracker.trackedProcesses
  {
    hide Deduplicated, IsDiff, Synced;
    events := tracker.Update(processes, now);
    attributor.SyncProcesses(tracker.trackedProcesses, events);
    RunningIffTracked(Observed(run, processes, now, events));
  }

  /** A reset of the tracker alone. */
  method Restart(tracker: ProcessTracker, attributor: ConnectionAttributor, ghost run: Lifecycle)
    requires Follows(tracker, attributor, run)
    modifies tracker
    ensures Follows(tracker, attributor, Restarted(run))
  {
    tracker.Reset();
    assert tracker.trackedProcesses == Tracked(Restarted(run));
  }

  /** A reset of the attributor alone. */
  method Forget(tracker: ProcessTracker, attributor: ConnectionAttributor, ghost run: Lifecycle)
    requires Follows(tracker, attributor, run)
    modifies attributor
    ensures Follows(tracker, attributor, Forgotten(run))
  {
    attributor.Reset();
  }
}
