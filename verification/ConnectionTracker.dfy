/** ConnectionTracker: diffs consecutive snapshots into CREATED and CLOSED events.  The events of
a run, replayed in any order within a batch, reproduce the tracked key set. */
module ConnectionTracker {
  import opened Model
  import opened IdentityKey

  datatype EventType = CREATED | CLOSED_EVENT
  datatype ConnectionEvent = ConnectionEvent(eventType: EventType, connection: Connection, timestamp: Time)

  /** Of the rows with one key the first counts. */
  function FirstConnections(rows: seq<Connection>): map<string, Connection> {
    if rows == [] then map[] else
      var m := FirstConnections(rows[..|rows| - 1]);
      var k := Key(rows[|rows| - 1]);
      if k in m then m else m[k := rows[|rows| - 1]]
  }

  lemma {:induction false} FirstConnectionsKeyed(rows: seq<Connection>, k: string)
    requires k in FirstConnections(rows)
    ensures Key(FirstConnections(rows)[k]) == k
  {
    if k in FirstConnections(rows[..|rows| - 1]) {
      FirstConnectionsKeyed(rows[..|rows| - 1], k);
    }
  }

  /** No earlier row has the key of row `i`. */
  ghost predicate IsFirst(rows: seq<Connection>, i: int) {
    0 <= i < |rows| && forall j | 0 <= j < i :: Key(rows[j]) != Key(rows[i])
  }

  /** The first row of a key is what is tracked of it. */
  lemma {:induction false} FirstConnectionsAreFirst(rows: seq<Connection>, i: nat)
    requires IsFirst(rows, i)
    ensures Key(rows[i]) in FirstConnections(rows) && FirstConnections(rows)[Key(rows[i])] == rows[i]
  {
    hide Key;
    var front := rows[..|rows| - 1];
    if i < |front| {
      FirstConnectionsAreFirst(front, i);
    } else {
      KeysOfRows(front, Key(rows[i]));
    }
  }

  lemma {:induction false} KeysOfRows(rows: seq<Connection>, k: string)
    ensures k in FirstConnections(rows) <==> exists i | 0 <= i < |rows| :: Key(rows[i]) == k
  {
    hide Key;
    if rows != [] {
      var front := rows[..|rows| - 1];
      KeysOfRows(front, k);
      assert forall i | 0 <= i < |front| :: front[i] == rows[i];
    }
  }

  /** Every tracked connection is the first row of its key. */
  lemma {:induction false} TrackedIsFirst(rows: seq<Connection>, k: string) returns (i: nat)
    requires k in FirstConnections(rows)
    ensures IsFirst(rows, i) && Key(rows[i]) == k && FirstConnections(rows)[k] == rows[i]
  {
    hide Key, FirstConnections;
    KeysOfRows(rows, k);
    i := 0;
    while Key(rows[i]) != k
      invariant i < |rows|
      invariant forall j | 0 <= j < i :: Key(rows[j]) != k
      decreases |rows| - i
    {
      i := i + 1;
    }
    FirstConnectionsAreFirst(rows, i);
  }

  // ----- One batch

  /** `e` reports a difference between two snapshots. */
  ghost predicate Reports(e: ConnectionEvent, prev: map<string, Connection>, next: map<string, Connection>, now: Time) {
    var k := Key(e.connection);
    && e.timestamp == now
    && if e.eventType == CREATED then k in next && k !in prev && next[k] == e.connection
      else k in prev && k !in next && prev[k] == e.connection
  }

  ghost predicate Mentions(events: seq<ConnectionEvent>, k: string) {
    exists e :: e in events && Key(e.connection) == k
  }

  /** `events` is the difference of two snapshots: every difference once, in some order. */
  ghost predicate IsDiff(events: seq<ConnectionEvent>, prev: map<string, Connection>, next: map<string, Connection>,
      now: Time) {
    && (forall e | e in events :: Reports(e, prev, next, now))
    && (forall k | (k in prev) != (k in next) :: Mentions(events, k))
    && forall i, j | 0 <= i < j < |events| :: Key(events[i].connection) != Key(events[j].connection)
  }

  /** Some key's first row in `from`; no row of `other` has the key. */
  ghost predicate IsRowOf(c: Connection, from: seq<Connection>, other: seq<Connection>) {
    && (forall j | 0 <= j < |other| :: Key(other[j]) != Key(c))
    && exists i :: IsFirst(from, i) && c == from[i]
  }

  /** The difference of two snapshots is told row by row: a creation tells the first row of its key in the
  later snapshot, a closing that in the earlier one, and the other snapshot has no row with the key. */
  lemma {:induction false} EventsTellRows(events: seq<ConnectionEvent>, before: seq<Connection>, after: seq<Connection>,
      now: Time)
    requires IsDiff(events, FirstConnections(before), FirstConnections(after), now)
    ensures forall e | e in events && e.eventType == CREATED :: IsRowOf(e.connection, after, before)
    ensures forall e | e in events && e.eventType != CREATED :: IsRowOf(e.connection, before, after)
    ensures forall e | e in events :: e.timestamp == now
  {
    hide Key, FirstConnections;
    forall e | e in events
      ensures if e.eventType == CREATED then IsRowOf(e.connection, after, before)
        else IsRowOf(e.connection, before, after)
    {
      var k := Key(e.connection);
      assert Reports(e, FirstConnections(before), FirstConnections(after), now);
      if e.eventType == CREATED {
        var i := TrackedIsFirst(after, k);
        KeysOfRows(before, k);
      } else {
        var i := TrackedIsFirst(before, k);
        KeysOfRows(after, k);
      }
    }
  }

  // ----- Replaying events

  ghost function Apply(keys: set<string>, e: ConnectionEvent): set<string> {
    if e.eventType == CREATED then keys + {Key(e.connection)} else keys - {Key(e.connection)}
  }

  ghost function Replay(keys: set<string>, events: seq<ConnectionEvent>): set<string> {
    if events == [] then keys else Apply(Replay(keys, events[..|events| - 1]), events[|events| - 1])
  }

  /** Follows one key through the events: `None` as soon as it is created while present or closed
  while absent, otherwise whether it is present at the end. */
  ghost function Follow(present: bool, events: seq<ConnectionEvent>, k: string): Option<bool> {
    if events == [] then Some(present) else
      var e := events[|events| - 1];
      match Follow(present, events[..|events| - 1], k)
      case None => None
      case Some(p) => if Key(e.connection) != k then Some(p) else if p == (e.eventType == CREATED) then None
        else Some(!p)
  }

  lemma {:induction false} FollowConcat(present: bool, a: seq<ConnectionEvent>, b: seq<ConnectionEvent>, k: string)
    ensures Follow(present, a + b, k)
      == match Follow(present, a, k) { case None => None case Some(p) => Follow(p, b, k) }
  {
    hide Key;
    if b == [] {
      assert a + b == a;
    } else {
      FollowConcat(present, a, b[..|b| - 1], k);
      assert (a + b)[..|a + b| - 1] == a + b[..|b| - 1];
    }
  }

  lemma {:induction false} ReplayConcat(keys: set<string>, a: seq<ConnectionEvent>, b: seq<ConnectionEvent>)
    ensures Replay(keys, a + b) == Replay(Replay(keys, a), b)
  {
    hide Key;
    if b == [] {
      assert a + b == a;
    } else {
      ReplayConcat(keys, a, b[..|b| - 1]);
      assert (a + b)[..|a + b| - 1] == a + b[..|b| - 1];
    }
  }

  /** A key that is never mishandled is in the replayed set exactly when it ends up present. */
  lemma {:induction false} ReplayFollows(keys: set<string>, events: seq<ConnectionEvent>, k: string)
    requires Follow(k in keys, events, k).Some?
    ensures k in Replay(keys, events) <==> Follow(k in keys, events, k).value
  {
    if events != [] {
      ReplayFollows(keys, events[..|events| - 1], k);
    }
  }

  /** A key outside some events is not affected by them. */
  lemma {:induction false} FollowUnmentioned(present: bool, events: seq<ConnectionEvent>, k: string)
    requires forall e | e in events :: Key(e.connection) != k
    ensures Follow(present, events, k) == Some(present)
  {
    hide Key;
    if events != [] {
      FollowUnmentioned(present, events[..|events| - 1], k);
      assert events[|events| - 1] in events;
    }
  }

  /** Whatever the order of its events, a batch takes every key from the previous to the next snapshot
  in a legal way. */
  lemma {:induction false} BatchFollows(events: seq<ConnectionEvent>, prev: map<string, Connection>,
      next: map<string, Connection>, now: Time, k: string)
    requires IsDiff(events, prev, next, now)
    ensures Follow(k in prev, events, k) == Some(k in next)
  {
    hide Key;
    if Mentions(events, k) {
      var e :| e in events && Key(e.connection) == k;
      var i :| 0 <= i < |events| && events[i] == e;
      var a, b := events[..i], events[i + 1..];
      assert events == a + [e] + b;
      assert Reports(e, prev, next, now);
      FollowUnmentioned(k in prev, a, k);
      FollowConcat(k in prev, a, [e], k);
      FollowOne(k in prev, e, k);
      FollowConcat(k in prev, a + [e], b, k);
      FollowUnmentioned(k in next, b, k);
    } else {
      FollowUnmentioned(k in prev, events, k);
    }
  }

  lemma {:induction false} FollowOne(present: bool, e: ConnectionEvent, k: string)
    requires Key(e.connection) == k && present == (e.eventType != CREATED)
    ensures Follow(present, [e], k) == Some(!present)
  {
    hide Key;
    assert [e][..0] == [];
    assert Follow(present, [], k) == Some(present);
  }

  /** The batch specification does not depend on the order of the events. */
  lemma {:induction false} DiffAnyOrder(events: seq<ConnectionEvent>, other: seq<ConnectionEvent>,
      prev: map<string, Connection>, next: map<string, Connection>, now: Time)
    requires IsDiff(events, prev, next, now) && multiset(other) == multiset(events)
    ensures IsDiff(other, prev, next, now)
  {
    hide Key, Reports;
    assert forall e :: e in other <==> e in multiset(other);
    assert forall e :: e in events <==> e in multiset(events);
    forall k | (k in prev) != (k in next) ensures Mentions(other, k) {
      var e :| e in events && Key(e.connection) == k;
      assert e in other;
    }
    forall i, j | 0 <= i < j < |other| ensures Key(other[i].connection) != Key(other[j].connection) {
      if Key(other[i].connection) == Key(other[j].connection) {
        OncePerKey(events, other[i], other[j]);
        TwiceInMultiset(other, i, j);
        OnceInMultiset(events, other[i]);
      }
    }
  }

  lemma {:induction false} OncePerKey(events: seq<ConnectionEvent>, a: ConnectionEvent, b: ConnectionEvent)
    requires forall i, j | 0 <= i < j < |events| :: Key(events[i].connection) != Key(events[j].connection)
    requires a in events && b in events && Key(a.connection) == Key(b.connection)
    ensures a == b
  {
    hide Key;
    var i :| 0 <= i < |events| && events[i] == a;
    var j :| 0 <= j < |events| && events[j] == b;
    assert !(i < j) && !(j < i);
  }

  lemma {:induction false} TwiceInMultiset(events: seq<ConnectionEvent>, i: nat, j: nat)
    requires i < j < |events| && events[i] == events[j]
    ensures multiset(events)[events[i]] >= 2
  {
    assert events == events[..i] + [events[i]] + events[i + 1..j] + [events[j]] + events[j + 1..];
  }

  lemma {:induction false} OnceInMultiset(events: seq<ConnectionEvent>, e: ConnectionEvent)
    requires forall i, j | 0 <= i < j < |events| :: Key(events[i].connection) != Key(events[j].connection)
    ensures multiset(events)[e] <= 1
  {
    hide Key;
    if e in events {
      var i :| 0 <= i < |events| && events[i] == e;
      assert events == events[..i] + [e] + events[i + 1..];
      assert e !in events[..i] && e !in events[i + 1..];
    }
  }

  // ----- Whole runs

  /** The updates since construction or reset, each with the events it returned. */
  datatype History = Unseeded | Observed(before: History, connections: seq<Connection>, now: Time,
    events: seq<ConnectionEvent>)

  function Current(h: History): map<string, Connection> {
    if h == Unseeded then map[] else FirstConnections(h.connections)
  }

  /** The first update seeds silently; every later one returns the difference. */
  ghost predicate Legal(h: History) {
    h != Unseeded ==>
      && Legal(h.before)
      && if h.before == Unseeded then h.events == [] else IsDiff(h.events, Current(h.before), Current(h), h.now)
  }

  /** The keys of the seeding snapshot. */
  function Baseline(h: History): set<string> {
    if h == Unseeded then {} else if h.before == Unseeded then Current(h).Keys else Baseline(h.before)
  }

  function Emitted(h: History): seq<ConnectionEvent> {
    if h == Unseeded then [] else Emitted(h.before) + h.events
  }

  /** Over a whole run the events of every key alternate, starting with CREATED exactly when the key
  was not in the seeding snapshot, and end with the key's current status. */
  lemma {:induction false} EventsAlternate(h: History, k: string)
    requires Legal(h)
    ensures Follow(k in Baseline(h), Emitted(h), k) == Some(k in Current(h))
  {
    hide FirstConnections, Key;
    if h != Unseeded {
      EventsAlternate(h.before, k);
      FollowConcat(k in Baseline(h), Emitted(h.before), h.events, k);
      if h.before == Unseeded {
        assert Emitted(h) == [];
      } else {
        BatchFollows(h.events, Current(h.before), Current(h), h.now, k);
      }
    }
  }

  /** Event replay: applying all emitted events to the seeding key set yields the current key set. */
  lemma {:induction false} EventReplay(h: History)
    requires Legal(h)
    ensures Replay(Baseline(h), Emitted(h)) == Current(h).Keys
  {
    hide Follow, Replay, Legal, Current, Baseline, Emitted;
    forall k ensures k in Replay(Baseline(h), Emitted(h)) <==> k in Current(h) {
      EventsAlternate(h, k);
      ReplayFollows(Baseline(h), Emitted(h), k);
    }
  }

  // ----- The class

  class ConnectionTracker {
    var activeConnections: map<string, Connection>
    var seeded: bool
    ghost var history: History

    ghost predicate Valid()
      reads this
    {
      && seeded == (history != Unseeded)
      && activeConnections == Current(history)
      && Legal(history)
    }

    constructor ()
      ensures Valid() && history == Unseeded
    {
      activeConnections, seeded, history := map[], false, Unseeded;
    }

    method Reset()
      modifies this
      ensures Valid() && history == Unseeded
    {
      activeConnections, seeded, history := map[], false, Unseeded;
    }

    method Deduplicate(connections: seq<Connection>) returns (nextActive: map<string, Connection>)
      ensures nextActive == FirstConnections(connections)
    {
      hide Key;
      nextActive := map[];
      var seen: set<string> := {};
      assert connections[..0] == [];
      for i := 0 to |connections|
        invariant seen == nextActive.Keys
        invariant nextActive == FirstConnections(connections[..i])
      {
        var key := Key(connections[i]);
        assert connections[..i + 1][..i] == connections[..i];
        if key !in seen {
          seen := seen + {key};
          nextActive := nextActive[key := connections[i]];
        }
      }
      assert connections[..|connections|] == connections;
    }

    /** One event for every key of `from` that `other` lacks, in map order. */
    method Differences(from: map<string, Connection>, other: map<string, Connection>, eventType: EventType, now: Time)
      returns (events: seq<ConnectionEvent>)
      requires forall k | k in from :: Key(from[k]) == k
      ensures forall e | e in events :: var k := Key(e.connection);
        e.timestamp == now && e.eventType == eventType && k in from && k !in other && from[k] == e.connection
      ensures forall k | k in from && k !in other :: Mentions(events, k)
      ensures forall i, j | 0 <= i < j < |events| :: Key(events[i].connection) != Key(events[j].connection)
    {
      hide Key;
      events := [];
      var keys := from.Keys;
      while keys != {}
        invariant keys <= from.Keys
        invariant forall e | e in events :: var k := Key(e.connection);
          e.timestamp == now && e.eventType == eventType && k in from.Keys - keys && k !in other &&
            from[k] == e.connection
        invariant forall k | k in from && k !in keys && k !in other :: Mentions(events, k)
        invariant forall i, j | 0 <= i < j < |events| :: Key(events[i].connection) != Key(events[j].connection)
      {
        var key :| key in keys;
        keys := keys - {key};
        if key !in other {
          ghost var was := events;
          var e := ConnectionEvent(eventType, from[key], now);
          events := events + [e];
          assert e in events;
          forall k | Mentions(was, k) ensures Mentions(events, k) {
            var d :| d in was && Key(d.connection) == k;
            assert d in events;
          }
          assert forall i | 0 <= i < |was| :: was[i] in was;
        }
      }
    }

    method Update(connections: seq<Connection>, now: Time) returns (events: seq<ConnectionEvent>)
      requires Valid()
      modifies this
      ensures Valid() && history == Observed(old(history), connections, now, events)
    {
      hide Key, FirstConnections;
      var nextActive := Deduplicate(connections);
      if !seeded {
        activeConnections := nextActive;
        seeded := true;
        events := [];
        history := Observed(history, connections, now, events);
        return;
      }
      forall k | k in nextActive ensures Key(nextActive[k]) == k { FirstConnectionsKeyed(connections, k); }
      forall k | k in activeConnections
        ensures Key(activeConnections[k]) == k { FirstConnectionsKeyed(history.connections, k); }
      var created := Differences(nextActive, activeConnections, CREATED, now);
      var closed := Differences(activeConnections, nextActive, CLOSED_EVENT, now);
      events := created + closed;
      BothDifferences(created, closed, activeConnections, nextActive, now);
      activeConnections := nextActive;
      history := Observed(history, connections, now, events);
    }
  }

  lemma {:induction false} BothDifferences(created: seq<ConnectionEvent>, closed: seq<ConnectionEvent>,
      prev: map<string, Connection>, next: map<string, Connection>, now: Time)
    requires forall e | e in created :: e.eventType == CREATED && Reports(e, prev, next, now)
    requires forall e | e in closed :: e.eventType != CREATED && Reports(e, prev, next, now)
    requires forall k | k in next && k !in prev :: Mentions(created, k)
    requires forall k | k in prev && k !in next :: Mentions(closed, k)
    requires forall i, j | 0 <= i < j < |created| :: Key(created[i].connection) != Key(created[j].connection)
    requires forall i, j | 0 <= i < j < |closed| :: Key(closed[i].connection) != Key(closed[j].connection)
    ensures IsDiff(created + closed, prev, next, now)
  {
    hide Key;
    var events := created + closed;
    forall k | (k in prev) != (k in next) ensures Mentions(events, k) {
      var part := if k in next then created else closed;
      assert Mentions(part, k);
      var e :| e in part && Key(e.connection) == k;
      assert e in events;
    }
    forall i, j | 0 <= i < j < |events| ensures Key(events[i].connection) != Key(events[j].connection) {
      if i < |created| <= j {
        assert events[i] in created && events[j] in closed;
      }
    }
  }
}
