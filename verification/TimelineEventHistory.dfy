/** The bounded event history: expiry by age, eviction of the oldest on overflow, lookups. */
module TimelineEventHistory {
  import opened Model
  import opened Timeline

  /** Events without a timestamp never expire; a maximum age of zero or less disables expiry. */
  predicate Expired(e: Event, now: Time, maxAge: int) {
    maxAge > 0 && e.timestamp != EPOCH && now - e.timestamp > maxAge as real
  }

  function Alive(now: Time, maxAge: int): Event -> bool {
    (e: Event) => !Expired(e, now, maxAge)
  }

  function Newest(s: seq<Event>, max: nat): seq<Event> {
    StableSortSorts(s);
    if |s| > max then StableSort(s)[|s| - max..] else s
  }

  /** What `cleanup` leaves of the stored events. */
  function Retain(s: seq<Event>, max: nat, now: Time, maxAge: int): seq<Event> {
    Newest(Filter(s, Alive(now, maxAge)), max)
  }

  /** Adding a batch cleans up once; an empty batch does nothing. */
  function AddBatch(s: seq<Event>, batch: seq<Event>, max: nat, now: Time, maxAge: int): seq<Event> {
    if batch == [] then s else Retain(s + batch, max, now, maxAge)
  }

  /** Adding the events of a batch one by one cleans up after each. */
  function AddEach(s: seq<Event>, batch: seq<Event>, max: nat, now: Time, maxAge: int): seq<Event> {
    if batch == [] then s
    else Retain(AddEach(s, batch[..|batch| - 1], max, now, maxAge) + [batch[|batch| - 1]], max, now, maxAge)
  }

  // ----- What a cleanup leaves

  /** Not too old: nothing is without an age limit, and nothing that carries no timestamp. */
  function WithinAge(now: Time, maxAge: int): Event -> bool {
    (e: Event) => maxAge <= 0 || e.timestamp == EPOCH || now - e.timestamp <= maxAge as real
  }

  /** `kept` is what the limits allow of the events `s`: those within the age limit, as they arrived, if
  they are not too many, and otherwise exactly the latest `max` of them. */
  ghost predicate WithinLimits(kept: seq<Event>, s: seq<Event>, max: nat, now: Time, maxAge: int) {
    var live := Filter(s, WithinAge(now, maxAge));
    if |live| <= max then kept == live else exists older :: Divides(older, kept, live, max)
  }

  /** The limits leave no choice, and a cleanup leaves exactly what they allow. */
  lemma {:induction false} RetainMeetsLimits(kept: seq<Event>, s: seq<Event>, max: nat, now: Time, maxAge: int)
    requires max >= 1
    ensures kept == Retain(s, max, now, maxAge) <==> WithinLimits(kept, s, max, now, maxAge)
  {
    hide Filter, StableSort, Divides;
    FilterSame(s, Alive(now, maxAge), WithinAge(now, maxAge));
    var live := Filter(s, WithinAge(now, maxAge));
    StableSortSorts(live);
    LatestDivides(live, kept, max);
  }

  lemma {:induction false} FilterSame(s: seq<Event>, p: Event -> bool, q: Event -> bool)
    requires forall e :: p(e) <==> q(e)
    ensures Filter(s, p) == Filter(s, q)
  {
    if s != [] {
      FilterSame(s[..|s| - 1], p, q);
    }
  }

  /** Event by event: what stays was there and is not too old, never more than the limit; if nothing had
  to be evicted everything not too old stays, and otherwise nothing that went for lack of room is later
  than anything that stays. */
  lemma {:induction false} LimitsByEvent(kept: seq<Event>, s: seq<Event>, max: nat, now: Time, maxAge: int)
    requires max >= 1 && WithinLimits(kept, s, max, now, maxAge)
    ensures |kept| <= max
    ensures forall e | e in kept ::
      e in s && (maxAge > 0 && e.timestamp != EPOCH ==> now - e.timestamp <= maxAge as real)
    ensures forall e |
      e in s && e !in kept && (maxAge <= 0 || e.timestamp == EPOCH || now - e.timestamp <= maxAge as real) ::
        |kept| == max && forall x | x in kept :: !EarlierThan(x, e)
  {
    hide Filter, StableSort, EarlierThan, Sorted, SameClasses;
    var p := WithinAge(now, maxAge);
    FilterMembers(s, p);
    if |Filter(s, p)| > max {
      var older :| Divides(older, kept, Filter(s, p), max);
      forall e ensures e in Filter(s, p) <==> e in older || e in kept {
        assert e in multiset(Filter(s, p)) <==> e in multiset(older) + multiset(kept);
      }
    }
  }

  // ----- Streaming equals batch

  /** Inserting into what is left after dropping the oldest `k` leaves, up to the oldest, what
  inserting first and dropping afterwards leaves. */
  lemma {:induction false} InsertDrop(s: seq<Event>, k: nat, e: Event)
    requires k <= |s|
    ensures |Insert(s, e)| == |s| + 1 && |Insert(s[k..], e)| == |s| - k + 1
    ensures Insert(s[k..], e)[1..] == Insert(s, e)[k + 1..]
    decreases |s|
  {
    hide EarlierThan;
    InsertLength(s, e);
    InsertLength(s[k..], e);
    if k < |s| {
      var front, x := s[..|s| - 1], s[|s| - 1];
      assert s == front + [x] && s[k..] == front[k..] + [x];
      InsertLength(front, e);
      if EarlierThan(e, x) {
        InsertBefore(front, x, e);
        InsertBefore(front[k..], x, e);
        InsertDrop(front, k, e);
      }
    }
  }

  lemma {:induction false} InsertLength(s: seq<Event>, e: Event)
    ensures |Insert(s, e)| == |s| + 1
  {
    if s != [] && EarlierThan(e, s[|s| - 1]) {
      InsertLength(s[..|s| - 1], e);
    }
  }

  /** Evicting before an insertion loses nothing that evicting after it keeps. */
  lemma {:induction false} EvictThenAdd(s: seq<Event>, e: Event, max: nat)
    requires max >= 1
    ensures Newest(Newest(s, max) + [e], max) == Newest(s + [e], max)
  {
    hide StableSort, Sorted, Insert;
    if |s| > max {
      var t, k := StableSort(s), |s| - max;
      StableSortSorts(s);
      StableSortSorts(s + [e]);
      SortedSplit(t, k);
      SortIdempotent(t[k..]);
      SortStep(s, e);
      SortStep(t[k..], e);
      InsertDrop(t, k, e);
    }
  }

  lemma {:induction false} NewestMembers(s: seq<Event>, max: nat)
    ensures forall e | e in Newest(s, max) :: e in s
    ensures |Newest(s, max)| == if |s| > max then max else |s|
  {
    hide StableSort, Sorted;
    StableSortSorts(s);
    forall e | e in StableSort(s) ensures e in s {
      assert e in multiset(StableSort(s));
    }
  }

  /** Cleaning up before an addition changes nothing of what a cleanup after it leaves. */
  lemma {:induction false} RetainThenAdd(s: seq<Event>, e: Event, max: nat, now: Time, maxAge: int)
    requires max >= 1
    ensures Retain(Retain(s, max, now, maxAge) + [e], max, now, maxAge) == Retain(s + [e], max, now, maxAge)
  {
    hide Filter, Expired, Newest;
    var p := Alive(now, maxAge);
    var live := Filter(s, p);
    FilterMembers(s, p);
    NewestMembers(live, max);
    FilterAll(Newest(live, max), p);
    FilterStep(Newest(live, max), e, p);
    FilterStep(s, e, p);
    if p(e) {
      EvictThenAdd(live, e, max);
    } else {
      NewestTwice(live, max);
    }
  }

  lemma {:induction false} NewestTwice(s: seq<Event>, max: nat)
    ensures Newest(Newest(s, max), max) == Newest(s, max)
  {
    NewestMembers(s, max);
  }

  /** For a fixed clock reading, every starting history and all limits: adding events one by one
  stores exactly the sequence that adding them in one batch stores. */
  lemma {:induction false} StreamingEqualsBatch(s: seq<Event>, batch: seq<Event>, max: nat, now: Time, maxAge: int)
    requires max >= 1
    ensures AddEach(s, batch, max, now, maxAge) == AddBatch(s, batch, max, now, maxAge)
  {
    hide Retain;
    if batch != [] {
      var front, e := batch[..|batch| - 1], batch[|batch| - 1];
      StreamingEqualsBatch(s, front, max, now, maxAge);
      if front == [] {
        assert batch == [e];
      } else {
        RetainThenAdd(s + front, e, max, now, maxAge);
        assert s + front + [e] == s + batch;
      }
    }
  }

  // ----- A moving clock

  /** Adding the events of a batch one by one, each at its own clock reading. */
  function AddOverTime(s: seq<Event>, batch: seq<Event>, clocks: seq<Time>, max: nat, maxAge: int): seq<Event>
    requires |clocks| == |batch|
  {
    if batch == [] then s else
      var n := |batch| - 1;
      Retain(AddOverTime(s, batch[..n], clocks[..n], max, maxAge) + [batch[n]], max, clocks[n], maxAge)
  }

  ghost predicate Timed(s: seq<Event>) {
    forall e | e in s :: e.timestamp != EPOCH
  }

  function Tail(t: seq<Event>, max: nat): seq<Event> {
    if |t| > max then t[|t| - max..] else t
  }

  /** The chronological view of what a cleanup leaves depends only on the chronological view. */
  lemma {:induction false} RetainSorted(s: seq<Event>, max: nat, now: Time, maxAge: int)
    ensures StableSort(Retain(s, max, now, maxAge)) == Tail(Filter(StableSort(s), Alive(now, maxAge)), max)
  {
    hide Filter, StableSort, Expired, Sorted;
    var live := Filter(s, Alive(now, maxAge));
    FilterCommutes(s, Alive(now, maxAge));
    StableSortSorts(live);
    if |live| > max {
      SortedSplit(StableSort(live), |live| - max);
      SortIdempotent(StableSort(live)[|live| - max..]);
    }
  }

  /** In chronological order, and with timestamps, what has expired comes first. */
  lemma {:induction false} ExpiredFirst(t: seq<Event>, now: Time, maxAge: int) returns (j: nat)
    requires Sorted(t) && Timed(t)
    ensures j <= |t|
    ensures forall e | e in t[..j] :: Expired(e, now, maxAge)
    ensures forall e | e in t[j..] :: !Expired(e, now, maxAge)
  {
    if t == [] {
      j := 0;
    } else {
      var front, e := t[..|t| - 1], t[|t| - 1];
      assert t == front + [e];
      SortedFront(front, e);
      if Expired(e, now, maxAge) {
        j := |t|;
        forall x | x in t[..j] ensures Expired(x, now, maxAge) {
          assert x in front || x == e;
          assert x.timestamp <= e.timestamp;
        }
      } else {
        j := ExpiredFirst(front, now, maxAge);
        assert t[..j] == front[..j] && t[j..] == front[j..] + [e];
      }
    }
  }

  lemma {:induction false} FilterSplit(t: seq<Event>, j: nat, p: Event -> bool)
    requires j <= |t| && (forall e | e in t[..j] :: !p(e)) && forall e | e in t[j..] :: p(e)
    ensures Filter(t, p) == t[j..]
  {
    hide Filter;
    assert t == t[..j] + t[j..];
    FilterConcat(t[..j], t[j..], p);
    FilterNone(t[..j], p);
    FilterAll(t[j..], p);
  }

  /** Evicting before an expiry is evicting after it. */
  lemma {:induction false} EvictThenExpire(t: seq<Event>, max: nat, now: Time, maxAge: int)
    requires Sorted(t) && Timed(t)
    ensures Filter(Tail(t, max), Alive(now, maxAge)) == Tail(Filter(t, Alive(now, maxAge)), max)
  {
    hide Filter, Expired, Sorted;
    var p := Alive(now, maxAge);
    var j := ExpiredFirst(t, now, maxAge);
    FilterSplit(t, j, p);
    if |t| > max {
      var k := |t| - max;
      var u := t[k..];
      assert forall i | 0 <= i < |u| :: u[i] == t[k + i];
      if j <= k {
        assert t[j..][k - j..] == u;
        FilterAll(u, p);
      } else {
        assert u[..j - k] == t[k..j] && u[j - k..] == t[j..];
        assert t[k..j] == t[..j][k..];
        FilterSplit(u, j - k, p);
      }
    }
  }

  /** An earlier cleanup changes nothing of the chronological view that a later one leaves. */
  lemma {:induction false} RetainEarlier(t: seq<Event>, e: Event, max: nat, earlier: Time, now: Time, maxAge: int)
    requires max >= 1 && earlier <= now && Sorted(t) && Timed(t)
    ensures Tail(Filter(Insert(Tail(Filter(t, Alive(earlier, maxAge)), max), e), Alive(now, maxAge)), max)
      == Tail(Filter(Insert(t, e), Alive(now, maxAge)), max)
  {
    hide Filter, Sorted, Insert;
    var p, q := Alive(now, maxAge), Alive(earlier, maxAge);
    var a, b := Filter(t, q), Filter(t, p);
    FilterMembers(t, q);
    FilterSorted(t, q);
    FilterTwice(t, p, q);
    EvictThenExpire(a, max, now, maxAge);
    InsertFilter(t, e, p);
    TailSorted(a, max);
    InsertFilter(Tail(a, max), e, p);
    hide Expired;
    if p(e) {
      InsertTail(b, e, max);
    }
  }

  lemma {:induction false} TailSorted(t: seq<Event>, max: nat)
    requires Sorted(t)
    ensures Sorted(Tail(t, max))
  {
    hide EarlierThan;
  }

  lemma {:induction false} InsertTail(t: seq<Event>, e: Event, max: nat)
    requires max >= 1
    ensures Tail(Insert(Tail(t, max), e), max) == Tail(Insert(t, e), max)
  {
    hide Insert;
    InsertLength(t, e);
    if |t| > max {
      InsertDrop(t, |t| - max, e);
    }
  }

  ghost predicate NonDecreasing(clocks: seq<Time>) {
    forall i, j | 0 <= i <= j < |clocks| :: clocks[i] <= clocks[j]
  }

  /** With a clock that never goes back, and events that carry timestamps, or limits without expiry, or
  room for all events, adding events one by one, each at its own time, shows the same chronology as
  adding them all at the last of these times. */
  lemma {:induction false} StreamingOverTime(s: seq<Event>, batch: seq<Event>, clocks: seq<Time>, max: nat, maxAge: int)
    requires max >= 1 && |clocks| == |batch| > 0 && NonDecreasing(clocks)
    requires Timed(s + batch) || maxAge <= 0 || |s + batch| <= max
    ensures StableSort(AddOverTime(s, batch, clocks, max, maxAge))
      == StableSort(Retain(s + batch, max, clocks[|clocks| - 1], maxAge))
  {
    hide StableSort, Retain;
    if maxAge <= 0 {
      AgelessStreaming(s, batch, clocks, max, clocks[|clocks| - 1], maxAge);
    } else if |s + batch| <= max {
      RoomyStreaming(s, batch, clocks, max, maxAge);
    } else {
      TimedStreaming(s, batch, clocks, max, maxAge);
    }
  }

  /** Where nothing can be evicted, the stored sequence is what is alive at the end, in order of arrival. */
  lemma {:induction false} RoomyStreaming(s: seq<Event>, batch: seq<Event>, clocks: seq<Time>, max: nat, maxAge: int)
    requires |clocks| == |batch| > 0 && NonDecreasing(clocks) && |s + batch| <= max
    ensures var live := Filter(s + batch, Alive(clocks[|clocks| - 1], maxAge));
      AddOverTime(s, batch, clocks, max, maxAge) == live == Retain(s + batch, max, clocks[|clocks| - 1], maxAge)
    decreases |batch|
  {
    hide Filter, Retain, Expired;
    var n := |batch| - 1;
    var front, times, e, now := batch[..n], clocks[..n], batch[n], clocks[n];
    assert batch == front + [e] && s + batch == s + front + [e];
    RetainRoomy(s + batch, max, now, maxAge);
    if n == 0 {
      assert front == [] && s + front == s;
    } else {
      RoomyStreaming(s, front, times, max, maxAge);
      var earlier := times[n - 1];
      RetainRoomy(s + front, max, earlier, maxAge);
      LiveThenAdd(s + front, e, earlier, now, maxAge);
      RetainRoomy(Filter(s + front, Alive(earlier, maxAge)) + [e], max, now, maxAge);
    }
  }

  lemma {:induction false} RetainRoomy(s: seq<Event>, max: nat, now: Time, maxAge: int)
    requires |s| <= max
    ensures Retain(s, max, now, maxAge) == Filter(s, Alive(now, maxAge)) && |Filter(s, Alive(now, maxAge))| <= |s|
  {
    hide Filter, StableSort, Expired;
    FilterMembers(s, Alive(now, maxAge));
  }

  lemma {:induction false} LiveThenAdd(s: seq<Event>, e: Event, earlier: Time, now: Time, maxAge: int)
    requires earlier <= now
    ensures Filter(Filter(s, Alive(earlier, maxAge)) + [e], Alive(now, maxAge)) == Filter(s + [e], Alive(now, maxAge))
  {
    StaysExpired(earlier, now, maxAge);
    hide Filter, Expired;
    FilterStep(s, e, Alive(now, maxAge));
    FilterStep(Filter(s, Alive(earlier, maxAge)), e, Alive(now, maxAge));
    FilterTwice(s, Alive(now, maxAge), Alive(earlier, maxAge));
  }

  lemma {:induction false} StaysExpired(earlier: Time, now: Time, maxAge: int)
    requires earlier <= now
    ensures forall e | Alive(now, maxAge)(e) :: Alive(earlier, maxAge)(e)
  {
  }

  /** Without expiry the clock does not matter: the stored sequences are the same. */
  lemma {:induction false} AgelessStreaming(s: seq<Event>, batch: seq<Event>, clocks: seq<Time>, max: nat, now: Time,
      maxAge: int)
    requires max >= 1 && |clocks| == |batch| > 0 && maxAge <= 0
    ensures AddOverTime(s, batch, clocks, max, maxAge) == Retain(s + batch, max, now, maxAge)
    decreases |batch|
  {
    hide Retain;
    var n := |batch| - 1;
    assert batch == batch[..n] + [batch[n]] && s + batch == s + batch[..n] + [batch[n]];
    RetainAgeless(s + batch, max, clocks[n], now, maxAge);
    if n == 0 {
      assert batch[..n] == [] && s + batch[..n] == s;
    } else {
      AgelessStreaming(s, batch[..n], clocks[..n], max, clocks[n], maxAge);
      RetainThenAdd(s + batch[..n], batch[n], max, clocks[n], maxAge);
    }
  }

  lemma {:induction false} RetainAgeless(s: seq<Event>, max: nat, a: Time, b: Time, maxAge: int)
    requires maxAge <= 0
    ensures Retain(s, max, a, maxAge) == Retain(s, max, b, maxAge)
  {
    KeepAll(s, a, maxAge);
    KeepAll(s, b, maxAge);
  }

  lemma {:induction false} TimedStreaming(s: seq<Event>, batch: seq<Event>, clocks: seq<Time>, max: nat, maxAge: int)
    requires max >= 1 && |clocks| == |batch| > 0 && NonDecreasing(clocks) && Timed(s + batch)
    ensures StableSort(AddOverTime(s, batch, clocks, max, maxAge))
      == StableSort(Retain(s + batch, max, clocks[|clocks| - 1], maxAge))
    decreases |batch|
  {
    hide Filter, StableSort, Retain, Expired, Sorted, Insert, Tail;
    var n := |batch| - 1;
    var front, times, e, now := batch[..n], clocks[..n], batch[n], clocks[n];
    assert batch == front + [e] && s + batch == s + front + [e];
    if n == 0 {
      assert front == [] && s + front == s;
    } else {
      TimedStreaming(s, front, times, max, maxAge);
      var was, earlier := AddOverTime(s, front, times, max, maxAge), times[n - 1];
      RetainSorted(was + [e], max, now, maxAge);
      RetainSorted(s + batch, max, now, maxAge);
      RetainSorted(s + front, max, earlier, maxAge);
      SortStep(was, e);
      SortStep(s + front, e);
      StableSortSorts(s + front);
      SortedTimed(s + front);
      RetainEarlier(StableSort(s + front), e, max, earlier, now, maxAge);
    }
  }

  lemma {:induction false} SortedTimed(s: seq<Event>)
    requires Timed(s)
    ensures Timed(StableSort(s))
  {
    hide StableSort, Sorted;
    StableSortSorts(s);
    forall e | e in StableSort(s) ensures e in s {
      assert e in multiset(StableSort(s));
    }
  }

  /** For these limits the chronology never depends on when the events of a batch are added. */
  ghost predicate StreamingIsExact(max: nat, maxAge: int) {
    forall s, batch, clocks | |clocks| == |batch| > 0 && NonDecreasing(clocks) ::
      StableSort(AddOverTime(s, batch, clocks, max, maxAge))
      == StableSort(Retain(s + batch, max, clocks[|clocks| - 1], maxAge))
  }

  /** Single additions over time show the chronology of the batch, for all histories, batches and
  clocks that never go back, exactly for the limits without expiry. */
  lemma {:induction false} StreamingExactIffAgeless(max: nat, maxAge: int)
    requires max >= 1
    ensures StreamingIsExact(max, maxAge) <==> maxAge <= 0
  {
    hide StableSort, Retain, AddOverTime;
    if maxAge <= 0 {
      forall s, batch, clocks | |clocks| == |batch| > 0 && NonDecreasing(clocks)
        ensures StableSort(AddOverTime(s, batch, clocks, max, maxAge))
          == StableSort(Retain(s + batch, max, clocks[|clocks| - 1], maxAge))
      {
        StreamingOverTime(s, batch, clocks, max, maxAge);
      }
    } else {
      var untimed, e := At(EPOCH), At(1.0);
      UntimedEventsAreEvicted(untimed, e, max, maxAge);
      var s, clocks := [untimed] + Copies(e, max - 1), [1.0, 2.0 + maxAge as real];
      StableSortSorts(AddOverTime(s, [e, e], clocks, max, maxAge));
      StableSortSorts(Retain(s + [e, e], max, clocks[1], maxAge));
    }
  }

  function At(timestamp: Time): Event {
    Event(timestamp, 0, "", PROCESS_SEEN, "", "", UNKNOWN, 0, 0, "")
  }

  function Copies(e: Event, n: nat): seq<Event> {
    seq(n, i => e)
  }

  /** Events without a timestamp never expire, but they are the first to be evicted.  In a full
  history that holds one, an addition evicts it for an event that the next addition finds expired;
  added together at the later time, it is the only event to stay.  This happens for all limits with
  expiry. */
  lemma {:induction false} UntimedEventsAreEvicted(untimed: Event, e: Event, max: nat, maxAge: int)
    requires max >= 1 && maxAge > 0
    requires untimed.timestamp == EPOCH && e.timestamp == 1.0
    ensures var s, later := [untimed] + Copies(e, max - 1), 2.0 + maxAge as real;
      && AddOverTime(s, [e, e], [1.0, later], max, maxAge) == []
      && Retain(s + [e, e], max, later, maxAge) == [untimed]
  {
    hide Filter, Retain, Newest, StableSort;
    var s, later := [untimed] + Copies(e, max - 1), 2.0 + maxAge as real;
    TwoAdditions(s, e, 1.0, later, max, maxAge);
    assert s + [e] == [untimed] + Copies(e, max) && s + [e, e] == [untimed] + Copies(e, max + 1);
    RetainCopies(untimed, e, max, 1.0, maxAge, max);
    RetainCopies(untimed, e, max, later, maxAge, max + 1);
    assert Copies(e, max) + [e] == Copies(e, max + 1);
    RetainNothing(Copies(e, max + 1), max, later, maxAge);
  }

  lemma {:induction false} TwoAdditions(s: seq<Event>, e: Event, a: Time, b: Time, max: nat, maxAge: int)
    ensures AddOverTime(s, [e, e], [a, b], max, maxAge) == Retain(Retain(s + [e], max, a, maxAge) + [e], max, b, maxAge)
  {
    hide Retain;
    assert [e, e][..1] == [e] && [a, b][..1] == [a] && [e][..0] == [] && [a][..0] == [];
    assert AddOverTime(s, [e], [a], max, maxAge) == Retain(AddOverTime(s, [], [], max, maxAge) + [e], max, a, maxAge);
  }

  /** One untimed event before copies of a timed one: if these are alive the untimed one is evicted,
  if they have expired it stays alone. */
  lemma {:induction false} RetainCopies(untimed: Event, e: Event, max: nat, now: Time, maxAge: int, n: nat)
    requires max >= 1 && untimed.timestamp == EPOCH && e.timestamp == 1.0
    ensures Expired(e, now, maxAge) ==> Retain([untimed] + Copies(e, n), max, now, maxAge) == [untimed]
    ensures !Expired(e, now, maxAge) && n == max ==>
      Retain([untimed] + Copies(e, n), max, now, maxAge) == Copies(e, max)
  {
    hide Filter, StableSort;
    var p := Alive(now, maxAge);
    FilterConcat([untimed], Copies(e, n), p);
    FilterAll([untimed], p);
    if Expired(e, now, maxAge) {
      FilterNone(Copies(e, n), p);
    } else {
      FilterAll(Copies(e, n), p);
      SortIdempotent([untimed] + Copies(e, n));
    }
  }

  lemma {:induction false} RetainNothing(s: seq<Event>, max: nat, now: Time, maxAge: int)
    requires forall e | e in s :: Expired(e, now, maxAge)
    ensures Retain(s, max, now, maxAge) == []
  {
    hide StableSort;
    FilterNone(s, Alive(now, maxAge));
  }

  // ----- What is lost

  /** A cleanup splits the events into the expired, the evicted and the kept.  At most `max` are
  kept; nothing is evicted unless the history is full, and no evicted event is later than a kept one. */
  lemma {:induction false} RetainKeepsNewest(s: seq<Event>, max: nat, now: Time, maxAge: int)
    returns (expired: seq<Event>, evicted: seq<Event>)
    ensures var kept := Retain(s, max, now, maxAge);
      && multiset(s) == multiset(expired) + multiset(evicted) + multiset(kept)
      && (forall e | e in expired :: Expired(e, now, maxAge))
      && (forall e | e in evicted + kept :: !Expired(e, now, maxAge))
      && |kept| <= max
      && (evicted != [] ==> |kept| == max)
      && forall x, e | x in evicted && e in kept :: !EarlierThan(e, x)
  {
    hide Filter, StableSort, EarlierThan, Expired, Newest;
    var live := Filter(s, Alive(now, maxAge));
    expired := Filter(s, e => Expired(e, now, maxAge));
    FilterPartition(s, Alive(now, maxAge), e => Expired(e, now, maxAge));
    FilterMembers(s, Alive(now, maxAge));
    FilterMembers(s, e => Expired(e, now, maxAge));
    evicted := NewestSplits(live, max);
  }

  lemma {:induction false} NewestSplits(s: seq<Event>, max: nat) returns (evicted: seq<Event>)
    ensures multiset(s) == multiset(evicted) + multiset(Newest(s, max))
    ensures forall e | e in evicted + Newest(s, max) :: e in s
    ensures |Newest(s, max)| <= max && (evicted != [] ==> |Newest(s, max)| == max)
    ensures forall x, e | x in evicted && e in Newest(s, max) :: !EarlierThan(e, x)
  {
    hide StableSort, EarlierThan, Sorted;
    evicted := [];
    if |s| > max {
      StableSortSorts(s);
      var t, k := StableSort(s), |s| - max;
      evicted := t[..k];
      assert t == t[..k] + t[k..];
      forall e | e in t ensures e in s {
        assert e in multiset(t);
      }
      SortedSplit(t, k);
    }
  }

  lemma {:induction false} FilterPartition(s: seq<Event>, p: Event -> bool, q: Event -> bool)
    requires forall e :: p(e) != q(e)
    ensures multiset(s) == multiset(Filter(s, q)) + multiset(Filter(s, p))
  {
    if s != [] {
      var front, e := s[..|s| - 1], s[|s| - 1];
      assert s == front + [e];
      FilterPartition(front, p, q);
    }
  }

  /** Cleaning up again at the same time removes nothing. */
  lemma {:induction false} RetainTwice(s: seq<Event>, max: nat, now: Time, maxAge: int)
    ensures Retain(Retain(s, max, now, maxAge), max, now, maxAge) == Retain(s, max, now, maxAge)
  {
    hide Filter, Newest, Expired;
    var p := Alive(now, maxAge);
    FilterMembers(s, p);
    NewestMembers(Filter(s, p), max);
    FilterAll(Newest(Filter(s, p), max), p);
    NewestTwice(Filter(s, p), max);
  }

  // ----- The class

  class TimelineEventHistory {
    var maxEvents: nat
    var maxAge: int
    var events: seq<Event>

    ghost predicate Valid()
      reads this
    {
      maxEvents >= 1
    }

    constructor (maxEvents: nat, maxAge: int)
      ensures Valid() && events == [] && this.maxAge == maxAge
      ensures this.maxEvents == if maxEvents == 0 then 1 else maxEvents
    {
      this.maxEvents := if maxEvents == 0 then 1 else maxEvents;
      this.maxAge := maxAge;
      events := [];
    }

    method Add(event: Event, now: Time)
      requires Valid()
      modifies `events
      ensures events == Retain(old(events) + [event], maxEvents, now, maxAge)
      ensures WithinLimits(events, old(events) + [event], maxEvents, now, maxAge)
      ensures |events| <= maxEvents
    {
      events := events + [event];
      var _ := Cleanup(now);
    }

    method AddAll(batch: seq<Event>, now: Time)
      requires Valid()
      modifies `events
      ensures events == AddBatch(old(events), batch, maxEvents, now, maxAge)
      ensures if batch == [] then events == old(events)
        else WithinLimits(events, old(events) + batch, maxEvents, now, maxAge)
    {
      if batch == [] {
        return;
      }
      events := events + batch;
      var _ := Cleanup(now);
    }

    method Cleanup(now: Time) returns (removed: nat)
      requires Valid()
      modifies `events
      ensures events == Retain(old(events), maxEvents, now, maxAge)
      ensures WithinLimits(events, old(events), maxEvents, now, maxAge)
      ensures maxAge > 0 ==>
        forall e | e in events && e.timestamp != EPOCH :: now - e.timestamp <= maxAge as real
      ensures removed == |old(events)| - |events| && |events| <= maxEvents
    {
      hide Filter, StableSort, Expired, WithinLimits;
      var before := |events|;
      ghost var left := Retain(events, maxEvents, now, maxAge);
      RetainMeetsLimits(left, events, maxEvents, now, maxAge);
      LimitsByEvent(left, events, maxEvents, now, maxAge);
      if events == [] {
        FilterAll(events, Alive(now, maxAge));
        return 0;
      }
      FilterMembers(events, Alive(now, maxAge));
      NewestMembers(Filter(events, Alive(now, maxAge)), maxEvents);
      if maxAge > 0 {
        events := Matching(events, Alive(now, maxAge));
      } else {
        KeepAll(events, now, maxAge);
      }
      if |events| > maxEvents {
        StableSortSorts(events);
        events := StableSort(events);
        var overflow := |events| - maxEvents;
        events := events[overflow..];
      }
      removed := before - |events|;
    }

    method SetMaxEvents(max: nat, now: Time)
      requires Valid()
      modifies this
      ensures Valid() && maxEvents == (if max == 0 then 1 else max) && maxAge == old(maxAge)
      ensures events == Retain(old(events), maxEvents, now, maxAge) && |events| <= maxEvents
      ensures WithinLimits(events, old(events), maxEvents, now, maxAge)
    {
      maxEvents := if max == 0 then 1 else max;
      var _ := Cleanup(now);
    }

    method SetMaxAge(age: int, now: Time)
      requires Valid()
      modifies this
      ensures Valid() && maxAge == age && maxEvents == old(maxEvents)
      ensures events == Retain(old(events), maxEvents, now, maxAge)
      ensures WithinLimits(events, old(events), maxEvents, now, maxAge)
    {
      maxAge := age;
      var _ := Cleanup(now);
    }

    method Clear()
      modifies `events
      ensures events == []
    {
      events := [];
    }

    method GetByProcessId(pid: uint32) returns (matched: seq<Event>)
      ensures matched == StableSort(Filter(events, OfProcess(pid)))
      ensures Sorted(matched) && forall e :: e in matched <==> e in events && e.processId == pid
    {
      hide StableSort, Filter, Sorted;
      LookupMembers(events, OfProcess(pid));
      matched := Matching(events, OfProcess(pid));
      matched := StableSort(matched);
    }

    method GetByProcessName(name: string) returns (matched: seq<Event>)
      ensures matched == StableSort(Filter(events, Named(name)))
      ensures Sorted(matched) && forall e :: e in matched <==> e in events && e.processName == name
    {
      hide StableSort, Filter, Sorted;
      LookupMembers(events, Named(name));
      matched := Matching(events, Named(name));
      matched := StableSort(matched);
    }

    /** The newest events up to the limit, in chronological order; nothing left out is later than
    anything returned. */
    method GetRecent(limit: nat) returns (recent: seq<Event>)
      ensures recent == Latest(events, limit)
      ensures exists older :: Divides(older, recent, events, limit)
    {
      hide StableSort, Divides;
      LatestDivides(events, Latest(events, limit), limit);
      recent := StableSort(events);
      if limit == 0 || limit >= |recent| {
        return recent;
      }
      recent := recent[|recent| - limit..];
    }
  }

  lemma {:induction false} KeepAll(s: seq<Event>, now: Time, maxAge: int)
    requires maxAge <= 0
    ensures Filter(s, Alive(now, maxAge)) == s
  {
    FilterAll(s, Alive(now, maxAge));
  }
}
