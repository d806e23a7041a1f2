/** What the collector holds when it is offered a one-way tracker's results after every update, among
other observations: the sessions its events come from, and the peaks of its destinations against the bytes
transferred. */
module CollectedSessions {
  import opened Model
  import opened Decimal
  import opened IdentityKey
  import opened FiniteSums
  import Endpoint
  import opened TransferAccounting
  import opened Samples
  import TransferTheorems
  import O = OneWayTracker
  import opened Timeline
  import opened TimelineEventCollector
  import opened CollectedEvents
  import ConnectionTracker
  import opened TimelineSummaryBuilder

  // ----- What the collector is offered

  /** The results of an update, in the order in which the map was visited. */
  ghost function Results(active: map<string, O.TrackedOneWay>, order: seq<string>): seq<O.OneWayStats>
    requires forall k | k in order :: k in active
  {
    seq(|order|, i requires 0 <= i < |order| => O.ToStats(active[order[i]], true))
  }

  /** What is collected after an update: the results in the order in which the map was visited, and what
  other sources offered before and after them. */
  datatype Round = Round(before: seq<Observation>, order: seq<string>, after: seq<Observation>)

  /** An observation of another kind: it shows no bytes in this direction and shares no transfer's key. */
  ghost predicate Foreign(o: Observation, d: Direction) {
    o.event.Bytes(d) == 0 && forall s :: TransferKey(s, d) != o.key
  }

  ghost predicate AllForeign(log: seq<Observation>, d: Direction) {
    forall o | o in log :: Foreign(o, d)
  }

  /** One round for each update. */
  ghost predicate Visits(rounds: seq<Round>, trace: Trace, d: Direction) {
    if trace == Start then rounds == []
    else
      && rounds != []
      && Enumerates(Last(rounds).order, O.ActiveOneWay(trace, d).Keys)
      && AllForeign(Last(rounds).before, d) && AllForeign(Last(rounds).after, d)
      && Visits(Earlier(rounds), trace.before, d)
  }

  ghost function Last(rounds: seq<Round>): Round
    requires rounds != []
  {
    rounds[|rounds| - 1]
  }

  ghost function Earlier(rounds: seq<Round>): seq<Round>
    requires rounds != []
  {
    rounds[..|rounds| - 1]
  }

  /** The observations made after each update. */
  ghost function Feed(rounds: seq<Round>, trace: Trace, d: Direction): seq<Observation>
    requires Visits(rounds, trace, d)
  {
    if trace == Start then []
    else Feed(Earlier(rounds), trace.before, d) + Batch(rounds, trace, d)
  }

  ghost function Batch(rounds: seq<Round>, trace: Trace, d: Direction): seq<Observation>
    requires trace != Start && Visits(rounds, trace, d)
  {
    Last(rounds).before + Transfers(Results(O.ActiveOneWay(trace, d), Last(rounds).order), d) + Last(rounds).after
  }

  /** Process events, connection events and the transfers of the other direction are foreign. */
  lemma {:induction false} OthersAreForeign(d: Direction, e: Direction, processEvents: seq<ProcessEvent>,
      processes: seq<ProcessInfo>, now: Time, changes: seq<ConnectionTracker.ConnectionEvent>,
      lookup: map<uint32, ProcessInfo>, stats: seq<O.OneWayStats>)
    requires d != e
    ensures AllForeign(Creations(processEvents), d) && AllForeign(Seen(processes, now), d)
    ensures AllForeign(Changes(changes, lookup), d) && AllForeign(Transfers(stats, e), d)
  {
    hide Foreign, ProcessSeen, ConnectionChange, Moved;
    forall info: ProcessInfo, at: Time ensures Foreign(ProcessSeen(info, at), d) {
      ProcessIsForeign(info, at, d);
    }
    forall change ensures Foreign(ConnectionChange(change, lookup), d) {
      ChangeIsForeign(change, lookup, d);
    }
    forall o | o in Creations(processEvents) ensures Foreign(o, d) {
      var i := CreationSource(processEvents, o);
    }
    forall o | o in Transfers(stats, e) ensures Foreign(o, d) {
      var i := TransferSource(stats, e, o);
      MovedIsForeign(stats[i], e, d);
    }
  }

  lemma {:induction false} ProcessIsForeign(info: ProcessInfo, at: Time, d: Direction)
    ensures Foreign(ProcessSeen(info, at), d)
  {
    hide TypeName;
    forall s: O.OneWayStats ensures TransferKey(s, d) != ProcessSeenKey(info.processId) {
      AnotherKind(s, d, PROCESS_SEEN, Digits(info.processId));
    }
  }

  lemma {:induction false} ChangeIsForeign(e: ConnectionTracker.ConnectionEvent, lookup: map<uint32, ProcessInfo>,
      d: Direction)
    ensures Foreign(ConnectionChange(e, lookup), d)
  {
    hide TypeName, Endpoint.FormatEndpoint;
    var t, c := if e.eventType == ConnectionTracker.CREATED then CONNECTION_OPENED else CONNECTION_CLOSED, e.connection;
    forall s: O.OneWayStats ensures TransferKey(s, d) != ConnectionKey(t, c) {
      AnotherKind(s, d, t, Digits(c.processId) + "|" + (Digits(c.protocol.Code()) + "|" + Tail(c)));
    }
  }

  lemma {:induction false} MovedIsForeign(s: O.OneWayStats, e: Direction, d: Direction)
    requires d != e
    ensures Foreign(Moved(s, e), d)
  {
    hide TransferKey, Endpoint.FormatEndpoint;
    forall t: O.OneWayStats ensures TransferKey(t, d) != TransferKey(s, e) {
      if TransferKey(t, d) == TransferKey(s, e) {
        TransferKeyInjective(t, d, s, e);
        assert false;
      }
    }
  }

  /** Keys of another kind are no transfer keys. */
  lemma {:induction false} AnotherKind(s: O.OneWayStats, d: Direction, t: ActivityType, x: string)
    requires t != TransferType(d)
    ensures TransferKey(s, d) != TypeName(t) + "|" + x
  {
    hide TypeName;
    if TransferKey(s, d) == TypeName(t) + "|" + x {
      KindInKey(TransferType(d), Digits(s.processId) + "|" + (Digits(s.protocol.Code()) + "|"
        + (s.remoteAddress + "|" + Digits(s.remotePort) + "|" + Digits(s.bytes))), t, x);
      assert false;
    }
  }

  /** The collected events of a process. */
  ghost function Collected(rounds: seq<Round>, trace: Trace, d: Direction, pid: uint32): seq<Event>
    requires Visits(rounds, trace, d)
  {
    Filter(Stored(Feed(rounds, trace, d)), OfProcess(pid))
  }

  // ----- Sessions and their remotes

  /** What an update returns for a session. */
  lemma {:induction false} SessionStats(trace: Trace, pid: uint32, k: string, d: Direction)
    requires Owns(trace, pid, k) && TraceBytes(trace, pid, d) < TWO_TO_THE_64
    ensures k in O.ActiveOneWay(trace, d)
    ensures var s := O.ToStats(O.ActiveOneWay(trace, d)[k], true);
      && s.processId == pid && s.bytes == SessionBytes(trace, k, d)
      && Endpoint.FormatEndpoint(s.remoteAddress, s.remotePort) == RemoteOf(LastRows(trace)[k])
  {
    hide FirstRows, Active, O.ActiveOneWay, TraceBytes, SessionBytes, Wrap;
    SessionInTrace(trace, pid, k, d);
    ActiveMirrorsSnapshot(trace);
    TransferTheorems.ActiveSession(trace, k);
    O.ActiveProjects(trace, d);
    WrapSmall(SessionBytes(trace, k, d));
    assert O.Project(Active(trace)[k], d) == O.ActiveOneWay(trace, d)[k];
  }

  lemma {:induction false} OwnerFromStats(trace: Trace, k: string, d: Direction)
    requires k in O.ActiveOneWay(trace, d)
    ensures Owns(trace, O.ActiveOneWay(trace, d)[k].connection.processId, k)
  {
    hide FirstRows, Active, O.ActiveOneWay;
    ActiveMirrorsSnapshot(trace);
    O.ActiveProjects(trace, d);
    assert O.Project(Active(trace)[k], d) == O.ActiveOneWay(trace, d)[k];
  }

  // ----- Where events come from

  lemma {:induction false} TransferOffered(stats: seq<O.OneWayStats>, d: Direction, i: nat)
    requires i < |stats| && stats[i].bytes != 0
    ensures Moved(stats[i], d) in Transfers(stats, d)
  {
    hide Moved;
    if i < |stats| - 1 {
      TransferOffered(stats[..|stats| - 1], d, i);
    }
  }

  /** Where an observation of the latest round comes from. */
  lemma {:induction false} BatchSource(rounds: seq<Round>, trace: Trace, d: Direction, o: Observation)
    returns (k: string)
    requires trace != Start && Visits(rounds, trace, d) && o in Batch(rounds, trace, d)
    ensures !Foreign(o, d) ==> k in O.ActiveOneWay(trace, d) && o.event.Bytes(d) != 0
    ensures !Foreign(o, d) ==> o == Moved(O.ToStats(O.ActiveOneWay(trace, d)[k], true), d)
  {
    hide Moved, Transfers, O.ActiveOneWay, Foreign, O.ToStats;
    var order := Last(rounds).order;
    var stats := Results(O.ActiveOneWay(trace, d), order);
    if o in Transfers(stats, d) {
      var i := TransferSource(stats, d, o);
      k := order[i];
      MovedBytes(stats[i], d);
    } else {
      k := "";
    }
  }

  lemma {:induction false} MovedBytes(s: O.OneWayStats, d: Direction)
    ensures Moved(s, d).event.Bytes(d) == s.bytes && Moved(s, d).event.processId == s.processId
    ensures Moved(s, d).event.remoteAddress == Endpoint.FormatEndpoint(s.remoteAddress, s.remotePort)
  {
  }

  lemma {:induction false} FeedSource(rounds: seq<Round>, trace: Trace, d: Direction, o: Observation)
    requires Visits(rounds, trace, d) && o in Feed(rounds, trace, d)
    ensures Foreign(o, d) || exists s :: o == Moved(s, d)
  {
    hide Moved, Batch, O.ActiveOneWay, Foreign, O.ToStats, Enumerates;
    if o in Batch(rounds, trace, d) {
      var k := BatchSource(rounds, trace, d, o);
    } else {
      FeedSource(Earlier(rounds), trace.before, d, o);
    }
  }

  /** A session with bytes is among the collected events of its process, under its remote: the
  collector may drop the observation, but only for one that reads the same. */
  lemma {:induction false} Covered(rounds: seq<Round>, trace: Trace, d: Direction, pid: uint32, k: string)
    returns (e: Event)
    requires Visits(rounds, trace, d) && Owns(trace, pid, k) && TraceBytes(trace, pid, d) < TWO_TO_THE_64
    requires SessionBytes(trace, k, d) != 0
    ensures e in Collected(rounds, trace, d, pid)
    ensures e.remoteAddress == RemoteOf(LastRows(trace)[k]) && e.Bytes(d) == SessionBytes(trace, k, d)
  {
    hide Transfers, TransferKey, O.ActiveOneWay, Filter, Stored, Kept, LastRows, SessionBytes, TraceBytes, Owns,
      Endpoint.FormatEndpoint, AllForeign;
    StartOwnsNothing(trace, pid, k);
    SessionStats(trace, pid, k, d);
    var active, order := O.ActiveOneWay(trace, d), Last(rounds).order;
    var i :| 0 <= i < |order| && order[i] == k;
    var s := Results(active, order)[i];
    var o := Moved(s, d);
    TransferOffered(Results(active, order), d, i);
    assert o in Batch(rounds, trace, d);
    assert o in Feed(rounds, trace, d);
    var kept := KeptOf(Feed(rounds, trace, d), o);
    FeedSource(rounds, trace, d, kept);
    var t :| kept == Moved(t, d);
    TransferKeyInjective(s, d, t, d);
    e := kept.event;
    FilterMembers(Stored(Feed(rounds, trace, d)), OfProcess(pid));
  }

  /** An event with bytes that the last update added comes from a continuing session. */
  lemma {:induction false} NewEventSource(rounds: seq<Round>, trace: Trace, d: Direction, pid: uint32, e: Event)
    returns (k: string)
    requires trace != Start && Visits(rounds, trace, d) && TraceBytes(trace, pid, d) < TWO_TO_THE_64
    requires e in Collected(rounds, trace, d, pid) && e !in Collected(Earlier(rounds), trace.before, d, pid)
    requires e.Bytes(d) != 0
    ensures Continues(trace, pid, k) && RemoteOf(LastRows(trace)[k]) == e.remoteAddress
    ensures SessionBytes(trace, k, d) == e.Bytes(d)
  {
    hide Batch, O.ActiveOneWay, Filter, Stored, Kept, LastRows, TraceBytes, Endpoint.FormatEndpoint, Moved, AllForeign,
      TransferKey;
    var before, batch := Feed(Earlier(rounds), trace.before, d), Batch(rounds, trace, d);
    FilterMembers(Stored(before + batch), OfProcess(pid));
    FilterMembers(Stored(before), OfProcess(pid));
    StoredGrows(before, batch);
    var at :| 0 <= at < |batch| && batch[at].event == e;
    assert batch[at] in batch;
    k := BatchSource(rounds, trace, d, batch[at]);
    MovedBytes(O.ToStats(O.ActiveOneWay(trace, d)[k], true), d);
    OwnerFromStats(trace, k, d);
    SessionStats(trace, pid, k, d);
  }

  // ----- Peaks against deltas

  ghost function PeaksOn(rs: set<string>, s: seq<Event>, d: Direction): map<string, nat> {
    map r | r in rs :: Peak(s, r, d)
  }

  /** Destinations that no event reaches add nothing. */
  lemma {:induction false} PeaksOnMore(rs: set<string>, s: seq<Event>, d: Direction)
    requires Remotes(s) <= rs && "" !in rs
    ensures Total(PeaksOn(rs, s, d)) == Total(Peaks(s, d))
  {
    hide Peak, Remotes, Total;
    var others := PeaksOn(rs - Remotes(s), s, d);
    forall r | r in others ensures others[r] == 0 {
      UnreachedPeak(s, r, d);
    }
    TotalZero(others);
    TotalSplit(PeaksOn(rs, s, d), Peaks(s, d), others);
  }

  lemma {:induction false} UnreachedPeak(s: seq<Event>, r: string, d: Direction)
    requires r !in Remotes(s) && r != ""
    ensures Peak(s, r, d) == 0
  {
    hide Peak, Remotes;
    RemoteMembers(s);
  }

  lemma {:induction false} CollectedGrows(rounds: seq<Round>, trace: Trace, d: Direction, pid: uint32)
    requires trace != Start && Visits(rounds, trace, d)
    ensures forall e | e in Collected(Earlier(rounds), trace.before, d, pid) :: e in Collected(rounds, trace, d, pid)
  {
    hide Filter, Stored, Batch, O.ActiveOneWay, AllForeign;
    var before, batch := Feed(Earlier(rounds), trace.before, d), Batch(rounds, trace, d);
    StoredGrows(before, batch);
    FilterMembers(Stored(before), OfProcess(pid));
    FilterMembers(Stored(before + batch), OfProcess(pid));
  }

  ghost function Growth(rs: set<string>, was: seq<Event>, next: seq<Event>, d: Direction): map<string, nat>
    requires forall e | e in was :: e in next
  {
    map r | r in rs :: PeakGrows(was, next, r, d); Peak(next, r, d) - Peak(was, r, d)
  }

  lemma {:induction false} PeakGrows(was: seq<Event>, next: seq<Event>, r: string, d: Direction)
    requires forall e | e in was :: e in next
    ensures Peak(was, r, d) <= Peak(next, r, d)
  {
    hide Peak;
  }

  lemma {:induction false} GrowthTotal(was: seq<Event>, next: seq<Event>, d: Direction)
    requires forall e | e in was :: e in next
    ensures Total(Peaks(next, d)) == Total(Peaks(was, d)) + Total(Growth(Remotes(next), was, next, d))
  {
    hide Peak, Remotes, Total;
    RemoteMembers(was);
    RemoteMembers(next);
    var rs := Remotes(next);
    PeaksOnMore(rs, was, d);
    PeaksOnMore(rs, next, d);
    TotalPlus(PeaksOn(rs, next, d), PeaksOn(rs, was, d), Growth(rs, was, next, d));
  }

  lemma {:induction false} UnfoldVisits(rounds: seq<Round>, trace: Trace, d: Direction)
    requires trace != Start && Visits(rounds, trace, d)
    ensures rounds != [] && Visits(Earlier(rounds), trace.before, d)
  {
    hide Enumerates, AllForeign;
  }

  /** A destination's peak grows only to the bytes of a continuing session that goes there. */
  lemma {:induction false} GrowthHasSource(rounds: seq<Round>, trace: Trace, d: Direction, pid: uint32, r: string)
    returns (k: string)
    requires trace != Start && Visits(rounds, trace, d) && TraceBytes(trace, pid, d) < TWO_TO_THE_64
    requires Peak(Collected(rounds, trace, d, pid), r, d) > Peak(Collected(Earlier(rounds), trace.before, d, pid), r, d)
    ensures Continues(trace, pid, k) && RemoteOfKey(trace, k) == r
    ensures Peak(Collected(rounds, trace, d, pid), r, d) == SessionBytes(trace, k, d)
  {
    hide Peak, Collected, LastRows, PriorRows, SessionBytes, TraceBytes, RemoteOf, Total, RemoteOfKey, Visits;
    UnfoldVisits(rounds, trace, d);
    var next, was := Collected(rounds, trace, d, pid), Collected(Earlier(rounds), trace.before, d, pid);
    var e :| e in next && e.remoteAddress == r && e.Bytes(d) == Peak(next, r, d);
    k := NewEventSource(rounds, trace, d, pid, e);
    RemoteOfOwned(trace, pid, k);
  }

  lemma {:induction false} NothingCollected(rounds: seq<Round>, trace: Trace, d: Direction, pid: uint32)
    requires trace == Start && Visits(rounds, trace, d)
    ensures Collected(rounds, trace, d, pid) == [] && Total(Peaks(Collected(rounds, trace, d, pid), d)) == 0
  {
    hide Total;
    var none := Collected(rounds, trace, d, pid);
    assert Kept([]) == [] && EventsOf([]) == [];
    assert none == [];
    TotalZero(Peaks(none, d));
  }

  // ----- One remote per session

  /** The remotes under which the current session of a key was collected.  Its first sample has no bytes,
  and an empty remote is not summarised. */
  ghost function ShownRemotes(trace: Trace, k: string): set<string> {
    if k !in PriorRows(trace) || k !in LastRows(trace) then {}
    else ShownRemotes(trace.before, k) + {RemoteOfKey(trace, k)} - {""}
  }

  /** The bytes of the current session of a key since it last showed a remote. */
  ghost function Unshown(trace: Trace, k: string, d: Direction): nat {
    if k !in PriorRows(trace) || k !in LastRows(trace) || RemoteOfKey(trace, k) != "" then 0
    else Unshown(trace.before, k, d) + Delta(PriorRows(trace)[k].Bytes(d), LastRows(trace)[k].Bytes(d))
  }

  /** No session of the process was ever shown under two remotes. */
  ghost predicate OneRemotePerSession(trace: Trace, pid: uint32) {
    trace != Start ==>
      && OneRemotePerSession(trace.before, pid)
      && forall k, r, q | Owns(trace, pid, k) && r in ShownRemotes(trace, k) && q in ShownRemotes(trace, k) :: r == q
  }

  lemma {:induction false} UnshownInSession(trace: Trace, k: string, d: Direction)
    ensures Unshown(trace, k, d) <= SessionBytes(trace, k, d)
  {
    hide FirstRows, RemoteOf;
    if k in PriorRows(trace) && k in LastRows(trace) {
      UnshownInSession(trace.before, k, d);
    }
  }

  /** What a session showed is covered by the peak of a remote it was shown under. */
  lemma {:induction false} ShownCovered(rounds: seq<Round>, trace: Trace, d: Direction, pid: uint32, k: string)
    returns (r: string)
    requires Visits(rounds, trace, d) && Owns(trace, pid, k) && TraceBytes(trace, pid, d) < TWO_TO_THE_64
    requires SessionBytes(trace, k, d) > Unshown(trace, k, d)
    ensures r in ShownRemotes(trace, k)
    ensures Peak(Collected(rounds, trace, d, pid), r, d) >= SessionBytes(trace, k, d) - Unshown(trace, k, d)
    decreases trace
  {
    hide FirstRows, Collected, Peak, TraceBytes, RemoteOf, Visits, Total;
    StartOwnsNothing(trace, pid, k);
    assert Continues(trace, pid, k);
    OwnedBefore(trace, pid, k);
    UnfoldVisits(rounds, trace, d);
    if RemoteOfKey(trace, k) != "" {
      r := RemoteOfKey(trace, k);
      RemoteOfOwned(trace, pid, k);
      var e := Covered(rounds, trace, d, pid, k);
    } else {
      UnfoldTraceBytes(trace, pid, d);
      r := ShownCovered(Earlier(rounds), trace.before, d, pid, k);
      ShownIsNamed(trace.before, k);
      CollectedGrows(rounds, trace, d, pid);
      PeakGrows(Collected(Earlier(rounds), trace.before, d, pid), Collected(rounds, trace, d, pid), r, d);
    }
  }

  lemma {:induction false} ShownIsNamed(trace: Trace, k: string)
    ensures "" !in ShownRemotes(trace, k)
  {
    hide FirstRows, RemoteOf;
  }

  /** The unshown bytes of a process's running sessions. */
  ghost function UnshownOf(trace: Trace, pid: uint32, d: Direction): map<string, nat> {
    map k | k in LastRows(trace) && Owns(trace, pid, k) :: Unshown(trace, k, d)
  }

  /** What each continuing session may show: what it had not shown, and its delta. */
  ghost function Pending(trace: Trace, pid: uint32, d: Direction): map<string, nat>
    requires trace != Start
  {
    map k | k in LastRows(trace) && Continues(trace, pid, k) ::
      Unshown(trace.before, k, d) + Delta(PriorRows(trace)[k].Bytes(d), LastRows(trace)[k].Bytes(d))
  }

  ghost function ShownNow(trace: Trace, pid: uint32, d: Direction): map<string, nat>
    requires trace != Start
  {
    map k | k in LastRows(trace) && Continues(trace, pid, k) ::
      if RemoteOfKey(trace, k) != "" then Pending(trace, pid, d)[k] else 0
  }

  lemma {:induction false} PendingSplits(trace: Trace, pid: uint32, d: Direction)
    requires trace != Start
    ensures Total(Pending(trace, pid, d)) == Total(ShownNow(trace, pid, d)) + Total(UnshownOf(trace, pid, d))
  {
    hide FirstRows, Total, RemoteOf;
    var pending, shown, rest := Pending(trace, pid, d), ShownNow(trace, pid, d), UnshownOf(trace, pid, d);
    var kept, started := Restrict(rest, pending.Keys), Restrict(rest, rest.Keys - pending.Keys);
    TotalZero(started);
    TotalSplit(rest, kept, started);
    TotalPlus(pending, shown, kept);
  }

  lemma {:induction false} PendingBounded(trace: Trace, pid: uint32, d: Direction)
    requires trace != Start
    ensures Total(Pending(trace, pid, d))
      <= Total(UnshownOf(trace.before, pid, d)) + Total(StepDeltas(PriorRows(trace), LastRows(trace), pid, d))
  {
    hide FirstRows, Total, RemoteOf, Unshown;
    var pending, was := Pending(trace, pid, d), UnshownOf(trace.before, pid, d);
    var deltas := StepDeltas(PriorRows(trace), LastRows(trace), pid, d);
    forall k | k in pending ensures k in was && k in deltas {
      OwnedBefore(trace, pid, k);
      DeltasOf(trace, pid, d, k);
    }
    var continued, ended := Restrict(was, pending.Keys), Restrict(was, was.Keys - pending.Keys);
    TotalSplit(was, continued, ended);
    TotalPlus(pending, continued, deltas);
  }

  /** A destination's peak grows at most by what one continuing session shows there. */
  lemma {:induction false} GrowthIsPending(rounds: seq<Round>, trace: Trace, d: Direction, pid: uint32, r: string)
    returns (k: string)
    requires trace != Start && Visits(rounds, trace, d) && TraceBytes(trace, pid, d) < TWO_TO_THE_64
    requires OneRemotePerSession(trace, pid) && r != ""
    requires Peak(Collected(rounds, trace, d, pid), r, d) > Peak(Collected(Earlier(rounds), trace.before, d, pid), r, d)
    ensures Continues(trace, pid, k) && RemoteOfKey(trace, k) == r && k in Pending(trace, pid, d)
    ensures Peak(Collected(rounds, trace, d, pid), r, d)
      <= Peak(Collected(Earlier(rounds), trace.before, d, pid), r, d) + Pending(trace, pid, d)[k]
  {
    hide Peak, Collected, FirstRows, Unshown, TraceBytes, RemoteOf, Total, Visits;
    k := GrowthHasSource(rounds, trace, d, pid, r);
    OwnedBefore(trace, pid, k);
    UnfoldTraceBytes(trace, pid, d);
    UnfoldVisits(rounds, trace, d);
    UnshownInSession(trace.before, k, d);
    assert r in ShownRemotes(trace, k);
    if SessionBytes(trace.before, k, d) > Unshown(trace.before, k, d) {
      var q := ShownCovered(Earlier(rounds), trace.before, d, pid, k);
      ShownIsNamed(trace.before, k);
      assert q in ShownRemotes(trace, k);
    }
  }

  lemma {:induction false} GrowthBounded(rounds: seq<Round>, trace: Trace, d: Direction, pid: uint32)
    requires trace != Start && Visits(rounds, trace, d) && TraceBytes(trace, pid, d) < TWO_TO_THE_64
    requires OneRemotePerSession(trace, pid)
    ensures Total(Peaks(Collected(rounds, trace, d, pid), d))
      - Total(Peaks(Collected(Earlier(rounds), trace.before, d, pid), d))
        <= Total(ShownNow(trace, pid, d))
  {
    hide Peak, Peaks, Collected, Remotes, FirstRows, TraceBytes, RemoteOf, Total, Unshown, RemoteOfKey,
      OneRemotePerSession;
    var next, was := Collected(rounds, trace, d, pid), Collected(Earlier(rounds), trace.before, d, pid);
    CollectedGrows(rounds, trace, d, pid);
    GrowthTotal(was, next, d);
    NamedRemotes(next);
    var growth, shown := Growth(Remotes(next), was, next, d), ShownNow(trace, pid, d);
    var goesTo := (r, k) => RemoteOfKey(trace, k) == r;
    forall r | r in growth && growth[r] > 0 ensures exists k :: k in shown && goesTo(r, k) && growth[r] <= shown[k] {
      var k := GrowthIsPending(rounds, trace, d, pid, r);
      assert goesTo(r, k);
    }
    TotalDominated(growth, shown, goesTo);
  }

  lemma {:induction false} NamedRemotes(s: seq<Event>)
    ensures "" !in Remotes(s)
  {
  }

  /** The collected peaks and the bytes not yet shown never add up to more than the process
  transferred, as long as no session is shown under two remotes. */
  lemma {:induction false} PeaksBounded(rounds: seq<Round>, trace: Trace, d: Direction, pid: uint32)
    requires Visits(rounds, trace, d) && OneRemotePerSession(trace, pid) && TraceBytes(trace, pid, d) < TWO_TO_THE_64
    ensures Total(Peaks(Collected(rounds, trace, d, pid), d)) + Total(UnshownOf(trace, pid, d))
      <= TraceBytes(trace, pid, d)
    decreases trace
  {
    hide FirstRows, Total, Peak, O.ActiveOneWay, StepDeltas, Kept, Unshown, ShownRemotes;
    if trace == Start {
      NothingCollected(rounds, trace, d, pid);
      TotalZero(UnshownOf(trace, pid, d));
    } else {
      hide Collected, Peaks, UnshownOf, TraceBytes;
      UnfoldTraceBytes(trace, pid, d);
      PeaksBounded(Earlier(rounds), trace.before, d, pid);
      GrowthBounded(rounds, trace, d, pid);
      PendingSplits(trace, pid, d);
      PendingBounded(trace, pid, d);
    }
  }

  // ----- When sessions keep their remotes

  /** Every continuing session of the process keeps its remote. */
  ghost predicate KeepsRemotes(trace: Trace, pid: uint32) {
    trace != Start ==>
      && KeepsRemotes(trace.before, pid)
      && forall k | Continues(trace, pid, k) :: RemoteOfKey(trace, k) == RemoteOfKey(trace.before, k)
  }

  lemma {:induction false} KeptIsShown(trace: Trace, pid: uint32, k: string)
    requires KeepsRemotes(trace, pid) && Owns(trace, pid, k)
    ensures ShownRemotes(trace, k) <= {RemoteOfKey(trace, k)}
  {
    hide FirstRows, RemoteOf;
    if Continues(trace, pid, k) {
      OwnedBefore(trace, pid, k);
      KeptIsShown(trace.before, pid, k);
    }
  }

  lemma {:induction false} KeptRemotesAreOne(trace: Trace, pid: uint32)
    requires KeepsRemotes(trace, pid)
    ensures OneRemotePerSession(trace, pid)
  {
    hide FirstRows, ShownRemotes, RemoteOf;
    if trace != Start {
      KeptRemotesAreOne(trace.before, pid);
      forall k | Owns(trace, pid, k) ensures ShownRemotes(trace, k) <= {RemoteOfKey(trace, k)} {
        KeptIsShown(trace, pid, k);
      }
    }
  }

  ghost predicate LocalsClean(trace: Trace, pid: uint32) {
    trace != Start ==>
      && LocalsClean(trace.before, pid)
      && forall row | row in trace.snapshots && row.connection.processId == pid :: '|' !in row.connection.localAddress
  }

  ghost predicate RemotesClean(trace: Trace, pid: uint32) {
    trace != Start ==>
      && RemotesClean(trace.before, pid)
      && forall row | row in trace.snapshots && row.connection.processId == pid :: '|' !in row.connection.remoteAddress
  }

  /** It is enough that the separator of the identity keys occurs in no local address, or in no remote
  address, of the process: no IP address holds it. */
  lemma {:induction false} CleanAddressesKeepRemotes(trace: Trace, pid: uint32)
    requires LocalsClean(trace, pid) || RemotesClean(trace, pid)
    ensures KeepsRemotes(trace, pid)
  {
    hide FirstRows, Endpoint.FormatEndpoint, IdentityKey.Key;
    if trace != Start {
      CleanAddressesKeepRemotes(trace.before, pid);
      forall k | Continues(trace, pid, k) ensures RemoteOfKey(trace, k) == RemoteOfKey(trace.before, k) {
        PriorOwner(trace, k);
        FirstRowsKeyed(trace.snapshots, k);
        FirstRowsKeyed(trace.before.snapshots, k);
        assert LocalsClean(trace, pid) ==> LocalsClean(trace.before, pid);
        assert RemotesClean(trace, pid) ==> RemotesClean(trace.before, pid);
        IdentityKey.KeyInjective(PriorRows(trace)[k].connection, LastRows(trace)[k].connection);
      }
    }
  }
}
