/** The deduplicating collector.  Its state is a function of the log of everything it was offered:
of the observations with one key the first is kept, in the bucket of its process. */
module TimelineEventCollector {
  import opened Model
  import opened Decimal
  import opened IdentityKey
  import FiniteSums
  import opened Timeline
  import Endpoint
  import OneWayTracker
  import ConnectionTracker

  datatype Observation = Observation(key: string, event: Event)

  // ----- What the sources are turned into

  function TypeName(t: ActivityType): string {
    match t
    case PROCESS_SEEN => "process_seen"
    case CONNECTION_OPENED => "connection_opened"
    case UPLOAD_ACTIVITY => "upload_activity"
    case DOWNLOAD_ACTIVITY => "download_activity"
    case CONNECTION_CLOSED => "connection_closed"
    case SUSPICIOUS_ACTIVITY => "suspicious_activity"
  }

  function DefaultDescription(t: ActivityType): string {
    match t
    case PROCESS_SEEN => "Process Started"
    case CONNECTION_OPENED => "Network Connection Opened"
    case UPLOAD_ACTIVITY => "Upload Activity Detected"
    case DOWNLOAD_ACTIVITY => "Download Activity Detected"
    case CONNECTION_CLOSED => "Connection Closed"
    case SUSPICIOUS_ACTIVITY => "Suspicious Activity Detected"
  }

  function ProcessSeenKey(pid: uint32): string {
    TypeName(PROCESS_SEEN) + "|" + Digits(pid)
  }

  function ConnectionKey(t: ActivityType, c: Connection): string {
    TypeName(t) + "|" + (Digits(c.processId) + "|" + (Digits(c.protocol.Code()) + "|" + Tail(c)))
  }

  function TransferType(d: Direction): ActivityType {
    if d == Upload then UPLOAD_ACTIVITY else DOWNLOAD_ACTIVITY
  }

  function TransferKey(s: OneWayTracker.OneWayStats, d: Direction): string {
    TypeName(TransferType(d)) + "|" + (
      Digits(s.processId) + "|" + (
        Digits(s.protocol.Code()) + "|" + (s.remoteAddress + "|" + Digits(s.remotePort) + "|" + Digits(s.bytes))))
  }

  function ProcessSeen(info: ProcessInfo, timestamp: Time): Observation {
    Observation(ProcessSeenKey(info.processId),
      Event(timestamp, info.processId, info.processName, PROCESS_SEEN, "", "", UNKNOWN, 0, 0,
        DefaultDescription(PROCESS_SEEN)))
  }

  function ConnectionChange(e: ConnectionTracker.ConnectionEvent, lookup: map<uint32, ProcessInfo>): Observation {
    var c, t := e.connection, if e.eventType == ConnectionTracker.CREATED then CONNECTION_OPENED else CONNECTION_CLOSED;
    Observation(ConnectionKey(t, c),
      Event(e.timestamp, c.processId, ResolveProcessName(c.processId, "", lookup), t,
        Endpoint.FormatEndpoint(c.localAddress, c.localPort),
        Endpoint.FormatEndpoint(c.remoteAddress, c.remotePort), c.protocol, 0, 0, DefaultDescription(t)))
  }

  function ResolveProcessName(pid: uint32, preferredName: string, lookup: map<uint32, ProcessInfo>): string {
    if preferredName != "" then preferredName
    else if pid in lookup then lookup[pid].processName
    else ""
  }

  function Moved(s: OneWayTracker.OneWayStats, d: Direction): Observation {
    Observation(TransferKey(s, d),
      Event(s.lastUpdated, s.processId, s.processName, TransferType(d), "",
        Endpoint.FormatEndpoint(s.remoteAddress, s.remotePort), s.protocol,
        if d == Upload then s.bytes else 0, if d == Download then s.bytes else 0,
        DefaultDescription(TransferType(d))))
  }

  /** Only creations are observed. */
  function Creations(events: seq<ProcessEvent>): seq<Observation> {
    if events == [] then [] else
      var e := events[|events| - 1];
      Creations(events[..|events| - 1]) + if e.eventType == PROCESS_CREATED
        then [ProcessSeen(e.processInfo, e.timestamp)] else []
  }

  function Seen(processes: seq<ProcessInfo>, now: Time): seq<Observation> {
    seq(|processes|, i requires 0 <= i < |processes| => ProcessSeen(processes[i], now))
  }

  function Changes(events: seq<ConnectionTracker.ConnectionEvent>, lookup: map<uint32, ProcessInfo>): seq<Observation> {
    seq(|events|, i requires 0 <= i < |events| => ConnectionChange(events[i], lookup))
  }

  /** Sessions without bytes are not observed. */
  function Transfers(stats: seq<OneWayTracker.OneWayStats>, d: Direction): seq<Observation> {
    if stats == [] then [] else
      var s := stats[|stats| - 1];
      Transfers(stats[..|stats| - 1], d) + if s.bytes == 0 then [] else [Moved(s, d)]
  }

  // ----- Keys

  /** Keys of different kinds never meet. */
  lemma {:induction false} KindInKey(t: ActivityType, x: string, u: ActivityType, y: string)
    requires TypeName(t) + "|" + x == TypeName(u) + "|" + y
    ensures t == u && x == y
  {
    NoBar(t);
    NoBar(u);
    CutFirst('|', TypeName(t), x, TypeName(u), y);
    assert TypeName(t)[0] == TypeName(u)[0];
    assert |TypeName(t)| == |TypeName(u)|;
    assert TypeName(CONNECTION_OPENED)[11] != TypeName(CONNECTION_CLOSED)[11];
  }

  lemma {:induction false} NoBar(t: ActivityType)
    ensures '|' !in TypeName(t)
  {
  }

  /** A transfer key determines everything a summary reads of its observation, whatever the
  addresses contain. */
  lemma {:induction false} TransferKeyInjective(s: OneWayTracker.OneWayStats, d: Direction,
      t: OneWayTracker.OneWayStats, e: Direction)
    requires TransferKey(s, d) == TransferKey(t, e)
    ensures d == e && s.processId == t.processId && s.protocol == t.protocol
    ensures s.remoteAddress == t.remoteAddress && s.remotePort == t.remotePort && s.bytes == t.bytes
  {
    hide TypeName;
    var tailS := s.remoteAddress + "|" + Digits(s.remotePort) + "|" + Digits(s.bytes);
    var tailT := t.remoteAddress + "|" + Digits(t.remotePort) + "|" + Digits(t.bytes);
    var codeS, codeT := Digits(s.protocol.Code()), Digits(t.protocol.Code());
    KindInKey(TransferType(d), Digits(s.processId) + "|" + (codeS + "|" + tailS), TransferType(e), Digits(t.processId)
      + "|" + (codeT + "|" + tailT));
    CutFirst('|', Digits(s.processId), codeS + "|" + tailS, Digits(t.processId), codeT + "|" + tailT);
    CutFirst('|', codeS, tailS, codeT, tailT);
    CutLast('|', s.remoteAddress + "|" + Digits(s.remotePort), Digits(s.bytes), t.remoteAddress + "|"
      + Digits(t.remotePort), Digits(t.bytes));
    CutLast('|', s.remoteAddress, Digits(s.remotePort), t.remoteAddress, Digits(t.remotePort));
    DigitsInjective(s.processId, t.processId);
    DigitsInjective(s.protocol.Code(), t.protocol.Code());
    DigitsInjective(s.remotePort, t.remotePort);
    DigitsInjective(s.bytes, t.bytes);
  }

  /** A connection key is the kind of the change and the identity of the connection; the time of the
  change is no part of it. */
  lemma {:induction false} ConnectionKeyInjective(t: ActivityType, a: Connection, u: ActivityType, b: Connection)
    requires ('|' !in a.localAddress && '|' !in b.localAddress) || ('|' !in a.remoteAddress && '|' !in b.remoteAddress)
    ensures ConnectionKey(t, a) == ConnectionKey(u, b) <==> t == u && SameIdentity(a, b)
  {
    hide TypeName, Tail;
    var codeA, codeB := Digits(a.protocol.Code()), Digits(b.protocol.Code());
    KeyInjective(a, b);
    KeyOfTail(a);
    KeyOfTail(b);
    if ConnectionKey(t, a) == ConnectionKey(u, b) {
      KindInKey(t, Digits(a.processId) + "|" + (codeA + "|" + Tail(a)), u, Digits(b.processId) + "|"
        + (codeB + "|" + Tail(b)));
      CutFirst('|', Digits(a.processId), codeA + "|" + Tail(a), Digits(b.processId), codeB + "|" + Tail(b));
      CutFirst('|', codeA, Tail(a), codeB, Tail(b));
    } else if SameIdentity(a, b) {
      KeyDeterminesOwner(a, b);
    }
  }

  // ----- Deduplication

  function KeysOf(log: seq<Observation>): set<string> {
    set i | 0 <= i < |log| :: log[i].key
  }

  /** The observations that are the first of their key, in the order of their arrival. */
  function Kept(log: seq<Observation>): seq<Observation> {
    if log == [] then [] else
      var front, o := log[..|log| - 1], log[|log| - 1];
      if o.key in KeysOf(front) then Kept(front) else Kept(front) + [o]
  }

  function EventsOf(log: seq<Observation>): seq<Event> {
    seq(|log|, i requires 0 <= i < |log| => log[i].event)
  }

  function Stored(log: seq<Observation>): seq<Event> {
    EventsOf(Kept(log))
  }

  lemma {:induction false} Offer(log: seq<Observation>, o: Observation)
    ensures KeysOf(log + [o]) == KeysOf(log) + {o.key}
    ensures Kept(log + [o]) == if o.key in KeysOf(log) then Kept(log) else Kept(log) + [o]
    ensures Stored(log + [o]) == if o.key in KeysOf(log) then Stored(log) else Stored(log) + [o.event]
  {
    var all := log + [o];
    assert all[..|log|] == log && all[|log|] == o;
    assert forall i | 0 <= i < |log| :: all[i] == log[i];
  }

  /** Every key is kept exactly once. */
  lemma {:induction false} KeptOncePerKey(log: seq<Observation>)
    ensures |Stored(log)| == |Kept(log)| == |KeysOf(log)|
  {
    if log == [] {
      assert KeysOf(log) == {};
    } else {
      hide Kept, KeysOf;
      var front, o := log[..|log| - 1], log[|log| - 1];
      assert log == front + [o];
      KeptOncePerKey(front);
      Offer(front, o);
    }
  }

  /** The first observation with a key is kept. */
  lemma {:induction false} FirstIsKept(log: seq<Observation>, i: nat)
    requires i < |log| && log[i].key !in KeysOf(log[..i])
    ensures log[i] in Kept(log)
  {
    hide Kept, KeysOf;
    var front, o := log[..|log| - 1], log[|log| - 1];
    assert log == front + [o];
    Offer(front, o);
    if i < |front| {
      assert front[..i] == log[..i];
      FirstIsKept(front, i);
    } else {
      assert log[..i] == front;
    }
  }

  /** A kept observation was the first with its key. */
  lemma {:induction false} KeptIsFirst(log: seq<Observation>, o: Observation) returns (i: nat)
    requires o in Kept(log)
    ensures i < |log| && log[i] == o && o.key !in KeysOf(log[..i])
  {
    hide KeysOf;
    var front, last := log[..|log| - 1], log[|log| - 1];
    assert log == front + [last];
    if o in Kept(front) {
      i := KeptIsFirst(front, o);
      assert front[..i] == log[..i];
    } else {
      i := |front|;
      assert log[..i] == front;
    }
  }

  lemma {:induction false} KeptIsStored(log: seq<Observation>, o: Observation)
    requires o in Kept(log)
    ensures o.event in Stored(log)
  {
    hide Kept;
    var i :| 0 <= i < |Kept(log)| && Kept(log)[i] == o;
    assert Stored(log)[i] == o.event;
  }

  lemma {:induction false} KeyOccurs(log: seq<Observation>, key: string) returns (o: Observation)
    requires key in KeysOf(log)
    ensures o in log && o.key == key
  {
    var i :| 0 <= i < |log| && log[i].key == key;
    o := log[i];
  }

  /** Every offered key has its kept observation. */
  lemma {:induction false} KeptOf(log: seq<Observation>, o: Observation) returns (kept: Observation)
    requires o in log
    ensures kept in Kept(log) && kept in log && kept.key == o.key && kept.event in Stored(log)
  {
    hide Kept, KeysOf, Stored;
    var front, last := log[..|log| - 1], log[|log| - 1];
    assert log == front + [last];
    Offer(front, last);
    if o in front {
      kept := KeptOf(front, o);
    } else if last.key in KeysOf(front) {
      var same := KeyOccurs(front, last.key);
      kept := KeptOf(front, same);
    } else {
      kept := last;
    }
    KeptIsStored(log, kept);
  }

  /** A batch whose keys were all collected already adds nothing. */
  lemma {:induction false} Recollection(log: seq<Observation>, batch: seq<Observation>)
    requires KeysOf(batch) <= KeysOf(log)
    ensures Kept(log + batch) == Kept(log) && KeysOf(log + batch) == KeysOf(log)
  {
    if batch == [] {
      assert log + batch == log;
    } else {
      var front, o := batch[..|batch| - 1], batch[|batch| - 1];
      assert batch == front + [o] && log + batch == log + front + [o];
      Offer(front, o);
      Recollection(log, front);
      Offer(log + front, o);
    }
  }

  /** A connection that reopens is not recorded again: of the changes of one kind on one connection
  only the first is stored, whenever the later ones happen. */
  lemma {:induction false} ReopeningIsNotRecorded(log: seq<Observation>, first: ConnectionTracker.ConnectionEvent,
      again: ConnectionTracker.ConnectionEvent, lookup: map<uint32, ProcessInfo>, later: map<uint32, ProcessInfo>)
    requires ConnectionChange(first, lookup) in log
    requires first.eventType == again.eventType && SameIdentity(first.connection, again.connection)
    ensures Stored(log + Changes([again], later)) == Stored(log)
  {
    hide Kept, TypeName;
    var batch := Changes([again], later);
    var i :| 0 <= i < |log| && log[i] == ConnectionChange(first, lookup);
    assert batch[0].key == log[i].key;
    Recollection(log, batch);
  }

  /** Adding a batch only appends, and what it appends was in the batch. */
  lemma {:induction false} StoredGrows(log: seq<Observation>, batch: seq<Observation>)
    ensures Stored(log) <= Stored(log + batch)
    ensures forall e | e in Stored(log + batch) && e !in Stored(log) :: e in EventsOf(batch)
  {
    hide Kept, KeysOf, Stored;
    if batch == [] {
      assert log + batch == log;
    } else {
      var front, o := batch[..|batch| - 1], batch[|batch| - 1];
      assert batch == front + [o] && log + batch == log + front + [o];
      StoredGrows(log, front);
      Offer(log + front, o);
      assert EventsOf(batch)[|front|] == o.event;
      assert EventsOf(batch)[..|front|] == EventsOf(front);
    }
  }

  // ----- Concatenating the buckets

  ghost function Sizes(buckets: map<uint32, seq<Event>>): map<uint32, nat> {
    map pid | pid in buckets :: |buckets[pid]|
  }

  /** `all` holds, in their order, the events of the processes outside `rest`. */
  ghost predicate Gathered(all: seq<Event>, s: seq<Event>, rest: set<uint32>) {
    && (forall pid: uint32 | pid !in rest :: Filter(all, OfProcess(pid)) == Filter(s, OfProcess(pid)))
    && forall e | e in all :: e.processId !in rest
  }

  lemma {:induction false} GatherBucket(all: seq<Event>, s: seq<Event>, rest: set<uint32>, pid: uint32)
    requires Gathered(all, s, rest) && pid in rest
    ensures Gathered(all + Filter(s, OfProcess(pid)), s, rest - {pid})
  {
    hide Filter;
    var bucket := Filter(s, OfProcess(pid));
    FilterMembers(s, OfProcess(pid));
    forall p: uint32 | p !in rest - {pid} ensures Filter(all + bucket, OfProcess(p)) == Filter(s, OfProcess(p)) {
      FilterConcat(all, bucket, OfProcess(p));
      if p == pid {
        FilterNone(all, OfProcess(p));
        FilterAll(bucket, OfProcess(p));
      } else {
        FilterNone(bucket, OfProcess(p));
      }
    }
  }

  /** Sequences with the same events for every process are permutations of each other. */
  lemma {:induction false} SameByProcess(s: seq<Event>, t: seq<Event>)
    requires forall pid: uint32 :: Filter(s, OfProcess(pid)) == Filter(t, OfProcess(pid))
    ensures multiset(s) == multiset(t)
  {
    forall e: Event ensures multiset(s)[e] == multiset(t)[e] {
      CountInBucket(s, e);
      CountInBucket(t, e);
    }
  }

  lemma {:induction false} CountInBucket(s: seq<Event>, e: Event)
    ensures multiset(s)[e] == multiset(Filter(s, OfProcess(e.processId)))[e]
  {
    if s != [] {
      var front, x := s[..|s| - 1], s[|s| - 1];
      assert s == front + [x];
      CountInBucket(front, e);
    }
  }

  /** The buckets without the last event. */
  ghost function Shortened(buckets: map<uint32, seq<Event>>, pid: uint32): map<uint32, seq<Event>>
    requires pid in buckets && buckets[pid] != []
  {
    var bucket := buckets[pid];
    if |bucket| == 1 then buckets - {pid} else buckets[pid := bucket[..|bucket| - 1]]
  }

  lemma {:induction false} InItsBucket(s: seq<Event>, e: Event)
    requires e in s
    ensures e in Filter(s, OfProcess(e.processId))
  {
    FilterMembers(s, OfProcess(e.processId));
  }

  lemma {:induction false} BucketGrows(s: seq<Event>, e: Event, pid: uint32)
    ensures Filter(s + [e], OfProcess(pid)) ==
      if pid == e.processId then Filter(s, OfProcess(pid)) + [e] else Filter(s, OfProcess(pid))
  {
    FilterStep(s, e, OfProcess(pid));
  }

  lemma {:induction false} Unbucket(s: seq<Event>, e: Event, buckets: map<uint32, seq<Event>>)
    requires Bucketed(s + [e], buckets)
    ensures e.processId in buckets && buckets[e.processId] != [] && Bucketed(s, Shortened(buckets, e.processId))
  {
    hide Filter, OfProcess;
    var owner, all := e.processId, s + [e];
    assert all[|s|] == e && e in all;
    var short := Filter(s, OfProcess(owner));
    BucketGrows(s, e, owner);
    assert buckets[owner] == short + [e] && (short + [e])[..|short|] == short;
    var rest := Shortened(buckets, owner);
    forall x | x in s ensures x.processId in rest {
      InItsBucket(s, x);
      assert x in all;
    }
    forall p | p in rest ensures rest[p] == Filter(s, OfProcess(p)) && rest[p] != [] {
      BucketGrows(s, e, p);
    }
  }

  lemma {:induction false} ShortenedSizes(buckets: map<uint32, seq<Event>>, pid: uint32)
    requires pid in buckets && buckets[pid] != []
    ensures FiniteSums.Total(Sizes(Shortened(buckets, pid))) + 1 == FiniteSums.Total(Sizes(buckets))
  {
    hide FiniteSums.Total;
    var b := Shortened(buckets, pid);
    FiniteSums.TotalRemove(Sizes(buckets), pid);
    if pid in b {
      FiniteSums.TotalRemove(Sizes(b), pid);
      assert Sizes(b) - {pid} == Sizes(buckets) - {pid};
    } else {
      assert Sizes(b) == Sizes(buckets) - {pid};
    }
  }

  /** Every event is in exactly one bucket. */
  lemma {:induction false} BucketSizes(s: seq<Event>, buckets: map<uint32, seq<Event>>)
    requires Bucketed(s, buckets)
    ensures FiniteSums.Total(Sizes(buckets)) == |s|
  {
    if s == [] {
      FiniteSums.TotalZero(Sizes(buckets));
    } else {
      hide Filter, Bucketed, FiniteSums.Total, Sizes, Shortened;
      var front, e := s[..|s| - 1], s[|s| - 1];
      assert s == front + [e];
      Unbucket(front, e, buckets);
      ShortenedSizes(buckets, e.processId);
      BucketSizes(front, Shortened(buckets, e.processId));
    }
  }

  // ----- The class

  class TimelineEventCollector {
    var eventsByProcess: map<uint32, seq<Event>>
    var seenEventKeys: set<string>
    /** Everything offered since the last reset, and the sum of all counts returned since then. */
    ghost var log: seq<Observation>
    ghost var returned: nat

    ghost predicate Valid()
      reads this
    {
      && seenEventKeys == KeysOf(log)
      && Bucketed(Stored(log), eventsByProcess)
      && returned == |Stored(log)|
    }

    constructor ()
      ensures Valid() && log == []
    {
      eventsByProcess, seenEventKeys, log, returned := map[], {}, [], 0;
    }

    method Reset()
      modifies this
      ensures Valid() && log == []
    {
      eventsByProcess, seenEventKeys, log, returned := map[], {}, [], 0;
    }

    method TryAdd(event: Event, dedupeKey: string) returns (added: bool)
      requires Valid()
      modifies this
      ensures Valid() && log == old(log) + [Observation(dedupeKey, event)]
      ensures added == (dedupeKey !in old(seenEventKeys)) && returned == old(returned) + if added then 1 else 0
    {
      hide Kept, KeysOf, Filter, Stored;
      ghost var o := Observation(dedupeKey, event);
      Offer(log, o);
      Bucket(Stored(log), eventsByProcess, event);
      log := log + [o];
      if dedupeKey in seenEventKeys {
        return false;
      }
      seenEventKeys := seenEventKeys + {dedupeKey};
      var pid := event.processId;
      eventsByProcess := eventsByProcess[pid :=
        (if pid in eventsByProcess then eventsByProcess[pid] else []) + [event]];
      returned := returned + 1;
      return true;
    }

    method CollectProcessEvents(events: seq<ProcessEvent>) returns (added: nat)
      requires Valid()
      modifies this
      ensures Valid() && log == old(log) + Creations(events)
      ensures returned == old(returned) + added
    {
      hide ProcessSeen, ConnectionChange, Kept, KeysOf, Bucketed, Stored;
      added := 0;
      assert events[..0] == [];
      for i := 0 to |events|
        invariant Valid() && log == old(log) + Creations(events[..i])
        invariant returned == old(returned) + added
      {
        assert events[..i + 1][..i] == events[..i];
        var event := events[i];
        if event.eventType == PROCESS_CREATED {
          var o := ProcessSeen(event.processInfo, event.timestamp);
          var stored := TryAdd(o.event, o.key);
          if stored {
            added := added + 1;
          }
        }
      }
      assert events[..|events|] == events;
    }

    method CollectActiveProcesses(processes: seq<ProcessInfo>, now: Time) returns (added: nat)
      requires Valid()
      modifies this
      ensures Valid() && log == old(log) + Seen(processes, now)
      ensures returned == old(returned) + added
    {
      hide ProcessSeen, ConnectionChange, Kept, KeysOf, Bucketed, Stored;
      added := 0;
      for i := 0 to |processes|
        invariant Valid() && log == old(log) + Seen(processes, now)[..i]
        invariant returned == old(returned) + added
      {
        var o := ProcessSeen(processes[i], now);
        var stored := TryAdd(o.event, o.key);
        if stored {
          added := added + 1;
        }
      }
    }

    method CollectConnectionEvents(events: seq<ConnectionTracker.ConnectionEvent>,
        lookup: map<uint32, ProcessInfo>) returns (added: nat)
      requires Valid()
      modifies this
      ensures Valid() && log == old(log) + Changes(events, lookup)
      ensures returned == old(returned) + added
    {
      hide ProcessSeen, ConnectionChange, Kept, KeysOf, Bucketed, Stored;
      added := 0;
      for i := 0 to |events|
        invariant Valid() && log == old(log) + Changes(events, lookup)[..i]
        invariant returned == old(returned) + added
      {
        var o := ConnectionChange(events[i], lookup);
        var stored := TryAdd(o.event, o.key);
        if stored {
          added := added + 1;
        }
      }
    }

    /** collectUploadStats and collectDownloadStats. */
    method CollectTransferStats(stats: seq<OneWayTracker.OneWayStats>, d: Direction) returns (added: nat)
      requires Valid()
      modifies this
      ensures Valid() && log == old(log) + Transfers(stats, d)
      ensures returned == old(returned) + added
    {
      hide Moved, Kept, KeysOf, Bucketed, Stored;
      added := 0;
      assert stats[..0] == [];
      for i := 0 to |stats|
        invariant Valid() && log == old(log) + Transfers(stats[..i], d)
        invariant returned == old(returned) + added
      {
        assert stats[..i + 1][..i] == stats[..i];
        if stats[i].bytes != 0 {
          var o := Moved(stats[i], d);
          var stored := TryAdd(o.event, o.key);
          if stored {
            added := added + 1;
          }
        }
      }
      assert stats[..|stats|] == stats;
    }

    method Collect(processEvents: seq<ProcessEvent>, connectionEvents: seq<ConnectionTracker.ConnectionEvent>,
        uploadStats: seq<OneWayTracker.OneWayStats>, downloadStats: seq<OneWayTracker.OneWayStats>,
        lookup: map<uint32, ProcessInfo>)
      returns (added: nat)
      requires Valid()
      modifies this
      ensures Valid()
      ensures log == old(log) + Creations(processEvents) + Changes(connectionEvents, lookup)
        + Transfers(uploadStats, Upload) + Transfers(downloadStats, Download)
      ensures returned == old(returned) + added
    {
      var a := CollectProcessEvents(processEvents);
      var b := CollectConnectionEvents(connectionEvents, lookup);
      var c := CollectTransferStats(uploadStats, Upload);
      var e := CollectTransferStats(downloadStats, Download);
      added := a + b + c + e;
    }

    function GetEventsForProcess(pid: uint32): (events: seq<Event>)
      requires Valid()
      reads this
      ensures events == Filter(Stored(log), OfProcess(pid))
    {
      if pid in eventsByProcess then eventsByProcess[pid]
      else
        FilterNone(Stored(log), OfProcess(pid));
        []
    }

    /** Whatever order the map is visited in, the result is a permutation of the stored events and
    keeps the order inside each process. */
    method GetAllEvents() returns (all: seq<Event>)
      requires Valid()
      ensures multiset(all) == multiset(Stored(log))
      ensures forall pid: uint32 :: Filter(all, OfProcess(pid)) == Filter(Stored(log), OfProcess(pid))
    {
      hide Filter, Stored;
      all := [];
      var keys := eventsByProcess.Keys;
      forall pid: uint32 | pid !in keys ensures Filter([], OfProcess(pid)) == Filter(Stored(log), OfProcess(pid)) {
        FilterNone(Stored(log), OfProcess(pid));
        FilterNone([], OfProcess(pid));
      }
      while keys != {}
        invariant keys <= eventsByProcess.Keys
        invariant Gathered(all, Stored(log), keys)
      {
        var pid :| pid in keys;
        GatherBucket(all, Stored(log), keys, pid);
        keys := keys - {pid};
        all := all + eventsByProcess[pid];
      }
      SameByProcess(all, Stored(log));
    }

    /** The count equals the number of keys seen, and the sum of all counts returned. */
    method EventCount() returns (total: nat)
      requires Valid()
      ensures total == |seenEventKeys| == returned == |Stored(log)|
    {
      hide Filter, Stored, KeysOf;
      total := 0;
      var keys := eventsByProcess.Keys;
      ghost var visited: map<uint32, nat> := map[];
      while keys != {}
        invariant keys <= eventsByProcess.Keys
        invariant visited.Keys == eventsByProcess.Keys - keys
        invariant forall pid | pid in visited :: visited[pid] == |eventsByProcess[pid]|
        invariant total == FiniteSums.Total(visited)
      {
        var pid :| pid in keys;
        FiniteSums.TotalInsert(visited, pid, |eventsByProcess[pid]|);
        keys := keys - {pid};
        total := total + |eventsByProcess[pid]|;
        visited := visited[pid := |eventsByProcess[pid]|];
      }
      assert visited == Sizes(eventsByProcess);
      BucketSizes(Stored(log), eventsByProcess);
      KeptOncePerKey(log);
    }
  }
}
