/** What the collector's events tell of their sources, field by field, which of the sources are stored, and
that a query by address finds the connections that went there. */
module CollectedEvents {
  import opened Model
  import opened Decimal
  import opened IdentityKey
  import opened Timeline
  import opened TimelineEventCollector
  import opened Endpoint
  import OneWayTracker
  import C = ConnectionTracker
  import Q = TimelineQuery

  // ----- What an event tells

  /** The event tells a process that was seen. */
  ghost predicate TellsProcess(e: Event, info: ProcessInfo, at: Time) {
    && e.timestamp == at && e.processId == info.processId && e.processName == info.processName
    && e.eventType == PROCESS_SEEN && e.protocol == UNKNOWN && e.localAddress == e.remoteAddress == ""
    && e.uploadedBytes == 0 == e.downloadedBytes && e.description == "Process Started"
  }

  /** The event tells a change of a connection: its time and owner, by the name that the lookup has, and
  both ends in full. */
  ghost predicate TellsChange(e: Event, change: C.ConnectionEvent, lookup: map<uint32, ProcessInfo>) {
    var c := change.connection;
    && e.timestamp == change.timestamp && e.processId == c.processId && e.protocol == c.protocol
    && (c.processId in lookup ==> e.processName == lookup[c.processId].processName)
    && (c.processId !in lookup ==> e.processName == "")
    && SpellsOut(e.localAddress, c.localAddress, c.localPort)
    && SpellsOut(e.remoteAddress, c.remoteAddress, c.remotePort)
    && e.uploadedBytes == 0 == e.downloadedBytes
    && (change.eventType == C.CREATED ==>
      e.eventType == CONNECTION_OPENED && e.description == "Network Connection Opened")
    && (change.eventType != C.CREATED ==> e.eventType == CONNECTION_CLOSED && e.description == "Connection Closed")
  }

  /** The event tells the bytes of a session, in one direction. */
  ghost predicate TellsTransfer(e: Event, s: OneWayTracker.OneWayStats, d: Direction) {
    && e.timestamp == s.lastUpdated && e.processId == s.processId && e.processName == s.processName
    && e.protocol == s.protocol && e.localAddress == ""
    && SpellsOut(e.remoteAddress, s.remoteAddress, s.remotePort)
    && (d == Upload ==>
      && e.eventType == UPLOAD_ACTIVITY && e.uploadedBytes == s.bytes && e.downloadedBytes == 0
      && e.description == "Upload Activity Detected")
    && (d == Download ==>
      && e.eventType == DOWNLOAD_ACTIVITY && e.downloadedBytes == s.bytes && e.uploadedBytes == 0
      && e.description == "Download Activity Detected")
  }

  // ----- What is stored

  /** The first observation of a key is stored, whatever follows it. */
  lemma {:induction false} FirstIsStored(log: seq<Observation>, batch: seq<Observation>, i: nat)
    requires i < |batch| && batch[i].key !in KeysOf(log) && forall j | 0 <= j < i :: batch[j].key != batch[i].key
    ensures batch[i].event in Stored(log + batch)
  {
    hide Kept;
    var all := log + batch;
    assert all[|log| + i] == batch[i] && all[..|log| + i] == log + batch[..i];
    forall j | 0 <= j < |log| + i ensures all[j].key != batch[i].key {
      assert j < |log| ==> log[j].key in KeysOf(log);
      assert j >= |log| ==> all[j] == batch[j - |log|];
    }
    FirstIsKept(all, |log| + i);
    KeptIsStored(all, batch[i]);
  }

  /** Changes have one key exactly if they are of one kind, on connections with one identity key. */
  lemma {:induction false} ChangeKeys(t: ActivityType, a: Connection, u: ActivityType, b: Connection)
    ensures ConnectionKey(t, a) == ConnectionKey(u, b) <==> t == u && Key(a) == Key(b)
  {
    hide TypeName, Tail;
    KeyOfTail(a);
    KeyOfTail(b);
    if Key(a) == Key(b) {
      KeyDeterminesOwner(a, b);
    }
    if ConnectionKey(t, a) == ConnectionKey(u, b) {
      var codeA, codeB := Digits(a.protocol.Code()), Digits(b.protocol.Code());
      KindInKey(t, Digits(a.processId) + "|" + (codeA + "|" + Tail(a)),
        u, Digits(b.processId) + "|" + (codeB + "|" + Tail(b)));
      CutFirst('|', Digits(a.processId), codeA + "|" + Tail(a), Digits(b.processId), codeB + "|" + Tail(b));
      CutFirst('|', codeA, Tail(a), codeB, Tail(b));
    }
  }

  function KindOf(change: C.ConnectionEvent): ActivityType {
    if change.eventType == C.CREATED then CONNECTION_OPENED else CONNECTION_CLOSED
  }

  /** No earlier change of the batch is of the same kind on the same connection. */
  ghost predicate FirstOfItsKind(changes: seq<C.ConnectionEvent>, i: nat) {
    i < |changes| && forall j | 0 <= j < i ::
      KindOf(changes[j]) != KindOf(changes[i]) || Key(changes[j].connection) != Key(changes[i].connection)
  }

  /** The first change of a kind on a connection is stored, and a query by the address of its remote finds it;
  and whatever the batch adds tells one of its changes. */
  lemma {:induction false} ChangesAreTold(log: seq<Observation>, changes: seq<C.ConnectionEvent>,
      lookup: map<uint32, ProcessInfo>)
    ensures var stored := Stored(log + Changes(changes, lookup));
      && (forall i: nat | FirstOfItsKind(changes, i) :: var change := changes[i];
        ConnectionKey(KindOf(change), change.connection) !in KeysOf(log) ==>
          exists e ::
            e in stored && TellsChange(e, change, lookup) && FoundBy(stored, e, change.connection.remoteAddress))
      && forall e | e in stored && e !in Stored(log) ::
        exists change :: change in changes && TellsChange(e, change, lookup)
  {
    hide Kept, Stored, TypeName, ConnectionChange, ConnectionKey, TellsChange, FoundBy;
    var batch := Changes(changes, lookup);
    var stored := Stored(log + batch);
    forall i: nat | FirstOfItsKind(changes, i) &&
        ConnectionKey(KindOf(changes[i]), changes[i].connection) !in KeysOf(log)
      ensures exists e ::
        e in stored && TellsChange(e, changes[i], lookup) && FoundBy(stored, e, changes[i].connection.remoteAddress)
    {
      StoredChange(log, changes, lookup, i);
    }
    StoredGrows(log, batch);
    forall e | e in stored && e !in Stored(log)
      ensures exists change :: change in changes && TellsChange(e, change, lookup)
    {
      var j :| 0 <= j < |batch| && batch[j].event == e;
      ChangeTells(changes[j], lookup);
      assert changes[j] in changes;
    }
  }

  /** The event is in the result of a query for the address. */
  ghost predicate FoundBy(s: seq<Event>, e: Event, address: string) {
    address != "" ==> Q.WentTo(e, address) && e in Q.ByRemote(s, address)
  }

  lemma {:induction false} ChangeTells(change: C.ConnectionEvent, lookup: map<uint32, ProcessInfo>)
    ensures ConnectionChange(change, lookup).key == ConnectionKey(KindOf(change), change.connection)
    ensures TellsChange(ConnectionChange(change, lookup).event, change, lookup)
    ensures Q.WentTo(ConnectionChange(change, lookup).event, change.connection.remoteAddress)
  {
    hide FormatEndpoint, SpellsOut, TypeName;
    var c := change.connection;
    FormatSpellsOut(c.localAddress, c.localPort);
    FormatSpellsOut(c.remoteAddress, c.remotePort);
  }

  lemma {:induction false} StoredChange(log: seq<Observation>, changes: seq<C.ConnectionEvent>,
      lookup: map<uint32, ProcessInfo>, i: nat)
    requires FirstOfItsKind(changes, i)
    requires ConnectionKey(KindOf(changes[i]), changes[i].connection) !in KeysOf(log)
    ensures var stored, e := Stored(log + Changes(changes, lookup)), ConnectionChange(changes[i], lookup).event;
      e in stored && TellsChange(e, changes[i], lookup) && FoundBy(stored, e, changes[i].connection.remoteAddress)
  {
    hide Kept, Stored, TypeName, KeysOf, Q.ByRemote, Q.WentTo, ConnectionChange, TellsChange, ConnectionKey;
    var batch, change := Changes(changes, lookup), changes[i];
    ChangeTells(change, lookup);
    forall j | 0 <= j < i ensures batch[j].key != batch[i].key {
      ChangeTells(changes[j], lookup);
      ChangeKeys(KindOf(changes[j]), changes[j].connection, KindOf(change), change.connection);
    }
    FirstIsStored(log, batch, i);
    if change.connection.remoteAddress != "" {
      Q.QueryIsComplete(Stored(log + batch), change.connection.remoteAddress);
    }
  }

  // ----- Processes

  lemma {:induction false} CreationSource(events: seq<ProcessEvent>, o: Observation) returns (i: nat)
    requires o in Creations(events)
    ensures i < |events| && events[i].eventType == PROCESS_CREATED
    ensures o == ProcessSeen(events[i].processInfo, events[i].timestamp)
  {
    hide ProcessSeen;
    var front, e := events[..|events| - 1], events[|events| - 1];
    if o in Creations(front) {
      i := CreationSource(front, o);
    } else {
      i := |events| - 1;
    }
  }

  lemma {:induction false} CreationsPrefix(events: seq<ProcessEvent>, i: nat)
    requires i <= |events|
    ensures Creations(events[..i]) <= Creations(events)
  {
    hide ProcessSeen;
    if i < |events| {
      CreationsPrefix(events[..|events| - 1], i);
      assert events[..|events| - 1][..i] == events[..i];
    } else {
      assert events[..i] == events;
    }
  }

  /** The event is the first creation of its PID. */
  ghost predicate FirstCreation(events: seq<ProcessEvent>, i: nat) {
    && i < |events| && events[i].eventType == PROCESS_CREATED
    && forall j | 0 <= j < i && events[j].eventType == PROCESS_CREATED ::
      events[j].processInfo.processId != events[i].processInfo.processId
  }

  lemma {:induction false} SeenKeys(a: uint32, b: uint32)
    ensures ProcessSeenKey(a) == ProcessSeenKey(b) <==> a == b
  {
    hide TypeName;
    if ProcessSeenKey(a) == ProcessSeenKey(b) {
      KindInKey(PROCESS_SEEN, Digits(a), PROCESS_SEEN, Digits(b));
      DigitsInjective(a, b);
    }
  }

  lemma {:induction false} StoredCreation(log: seq<Observation>, events: seq<ProcessEvent>, i: nat)
    requires FirstCreation(events, i) && ProcessSeenKey(events[i].processInfo.processId) !in KeysOf(log)
    ensures ProcessSeen(events[i].processInfo, events[i].timestamp).event in Stored(log + Creations(events))
  {
    hide Kept, Stored, ProcessSeenKey, KeysOf;
    var before, batch := Creations(events[..i]), Creations(events);
    CreationsPrefix(events, i);
    CreationsPrefix(events, i + 1);
    assert events[..i + 1][..i] == events[..i];
    assert batch[|before|] == ProcessSeen(events[i].processInfo, events[i].timestamp);
    forall j | 0 <= j < |before| ensures batch[j].key != batch[|before|].key {
      assert batch[j] == before[j] && before[j] in before;
      var at := CreationSource(events[..i], before[j]);
      SeenKeys(events[at].processInfo.processId, events[i].processInfo.processId);
    }
    FirstIsStored(log, batch, |before|);
  }

  /** A process whose creation is collected for the first time is stored, and whatever the batch adds tells a
  creation. */
  lemma {:induction false} CreationsAreTold(log: seq<Observation>, events: seq<ProcessEvent>)
    ensures var stored := Stored(log + Creations(events));
      && (forall i: nat | FirstCreation(events, i) && ProcessSeenKey(events[i].processInfo.processId) !in KeysOf(log) ::
        exists e :: e in stored && TellsProcess(e, events[i].processInfo, events[i].timestamp))
      && forall e | e in stored && e !in Stored(log) :: exists event ::
        event in events && event.eventType == PROCESS_CREATED && TellsProcess(e, event.processInfo, event.timestamp)
  {
    hide Kept, Stored, ProcessSeenKey, KeysOf;
    var batch := Creations(events);
    var stored := Stored(log + batch);
    forall i: nat | FirstCreation(events, i) && ProcessSeenKey(events[i].processInfo.processId) !in KeysOf(log)
      ensures exists e :: e in stored && TellsProcess(e, events[i].processInfo, events[i].timestamp)
    {
      StoredCreation(log, events, i);
    }
    StoredGrows(log, batch);
    forall e | e in stored && e !in Stored(log)
      ensures exists event ::
        event in events && event.eventType == PROCESS_CREATED && TellsProcess(e, event.processInfo, event.timestamp)
    {
      var j :| 0 <= j < |batch| && batch[j].event == e;
      var i := CreationSource(events, batch[j]);
      assert events[i] in events;
    }
  }

  /** A running process that is collected for the first time is stored. */
  lemma {:induction false} SeenAreTold(log: seq<Observation>, processes: seq<ProcessInfo>, now: Time)
    ensures var stored := Stored(log + Seen(processes, now));
      && (forall i: nat | i < |processes| && ProcessSeenKey(processes[i].processId) !in KeysOf(log) &&
        (forall j | 0 <= j < i :: processes[j].processId != processes[i].processId) ::
          exists e :: e in stored && TellsProcess(e, processes[i], now))
      && forall e | e in stored && e !in Stored(log) :: exists info :: info in processes && TellsProcess(e, info, now)
  {
    hide Kept, Stored, ProcessSeenKey, KeysOf;
    var batch := Seen(processes, now);
    var stored := Stored(log + batch);
    forall i: nat | i < |processes| && ProcessSeenKey(processes[i].processId) !in KeysOf(log) &&
        (forall j | 0 <= j < i :: processes[j].processId != processes[i].processId)
      ensures exists e :: e in stored && TellsProcess(e, processes[i], now)
    {
      forall j | 0 <= j < i ensures batch[j].key != batch[i].key {
        SeenKeys(processes[j].processId, processes[i].processId);
      }
      FirstIsStored(log, batch, i);
      assert TellsProcess(batch[i].event, processes[i], now);
    }
    StoredGrows(log, batch);
    forall e | e in stored && e !in Stored(log) ensures exists info :: info in processes && TellsProcess(e, info, now) {
      var j :| 0 <= j < |batch| && batch[j].event == e;
      assert processes[j] in processes && TellsProcess(e, processes[j], now);
    }
  }

  // ----- Transfers

  lemma {:induction false} TransferSource(stats: seq<OneWayTracker.OneWayStats>, d: Direction, o: Observation)
    returns (i: nat)
    requires o in Transfers(stats, d)
    ensures i < |stats| && stats[i].bytes != 0 && o == Moved(stats[i], d)
  {
    hide Moved;
    var front, s := stats[..|stats| - 1], stats[|stats| - 1];
    if o in Transfers(front, d) {
      i := TransferSource(front, d, o);
    } else {
      i := |stats| - 1;
    }
  }

  lemma {:induction false} TransfersPrefix(stats: seq<OneWayTracker.OneWayStats>, d: Direction, i: nat)
    requires i <= |stats|
    ensures Transfers(stats[..i], d) <= Transfers(stats, d)
  {
    hide Moved;
    if i < |stats| {
      TransfersPrefix(stats[..|stats| - 1], d, i);
      assert stats[..|stats| - 1][..i] == stats[..i];
    } else {
      assert stats[..i] == stats;
    }
  }

  /** No earlier session of the batch has the key. */
  ghost predicate FirstTransfer(stats: seq<OneWayTracker.OneWayStats>, d: Direction, i: nat) {
    && i < |stats| && stats[i].bytes != 0
    && forall j | 0 <= j < i :: TransferKey(stats[j], d) != TransferKey(stats[i], d)
  }

  lemma {:induction false} StoredTransfer(log: seq<Observation>, stats: seq<OneWayTracker.OneWayStats>, d: Direction,
      i: nat)
    requires FirstTransfer(stats, d, i) && TransferKey(stats[i], d) !in KeysOf(log)
    ensures Moved(stats[i], d).event in Stored(log + Transfers(stats, d))
  {
    hide Kept, Stored, TransferKey, KeysOf;
    var before, batch := Transfers(stats[..i], d), Transfers(stats, d);
    TransfersPrefix(stats, d, i);
    TransfersPrefix(stats, d, i + 1);
    assert stats[..i + 1][..i] == stats[..i];
    assert batch[|before|] == Moved(stats[i], d);
    forall j | 0 <= j < |before| ensures batch[j].key != batch[|before|].key {
      assert batch[j] == before[j] && before[j] in before;
      var at := TransferSource(stats[..i], d, before[j]);
    }
    FirstIsStored(log, batch, |before|);
  }

  /** A session that shows its bytes for the first time is stored, and whatever the batch adds tells a session
  with bytes. */
  lemma {:induction false} TransfersAreTold(log: seq<Observation>, stats: seq<OneWayTracker.OneWayStats>, d: Direction)
    ensures var stored := Stored(log + Transfers(stats, d));
      && (forall i: nat | FirstTransfer(stats, d, i) && TransferKey(stats[i], d) !in KeysOf(log) ::
        exists e :: e in stored && TellsTransfer(e, stats[i], d))
      && forall e | e in stored && e !in Stored(log) :: exists s ::
        s in stats && s.bytes != 0 && TellsTransfer(e, s, d)
  {
    hide Kept, Stored, TransferKey, KeysOf, Moved, TellsTransfer;
    var batch := Transfers(stats, d);
    var stored := Stored(log + batch);
    forall i: nat | FirstTransfer(stats, d, i) && TransferKey(stats[i], d) !in KeysOf(log)
      ensures exists e :: e in stored && TellsTransfer(e, stats[i], d)
    {
      StoredTransfer(log, stats, d, i);
      TransferTells(stats[i], d);
    }
    StoredGrows(log, batch);
    forall e | e in stored && e !in Stored(log)
      ensures exists s :: s in stats && s.bytes != 0 && TellsTransfer(e, s, d)
    {
      var j :| 0 <= j < |batch| && batch[j].event == e;
      var i := TransferSource(stats, d, batch[j]);
      TransferTells(stats[i], d);
      assert stats[i] in stats;
    }
  }

  lemma {:induction false} TransferTells(s: OneWayTracker.OneWayStats, d: Direction)
    ensures TellsTransfer(Moved(s, d).event, s, d)
  {
    hide FormatEndpoint, SpellsOut;
    FormatSpellsOut(s.remoteAddress, s.remotePort);
  }
}
