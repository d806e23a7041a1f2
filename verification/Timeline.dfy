/** Timeline events, their order, and stable sorting.  `StableSort` is an insertion sort;
`StableSortIsUnique` shows that any stable sort computes the same sequence. */
module Timeline {
  import opened Model

  datatype ActivityType =
    | PROCESS_SEEN | CONNECTION_OPENED | UPLOAD_ACTIVITY | DOWNLOAD_ACTIVITY | CONNECTION_CLOSED | SUSPICIOUS_ACTIVITY
  {
    function Code(): nat {
      match this
      case PROCESS_SEEN => 0
      case CONNECTION_OPENED => 1
      case UPLOAD_ACTIVITY => 2
      case DOWNLOAD_ACTIVITY => 3
      case CONNECTION_CLOSED => 4
      case SUSPICIOUS_ACTIVITY => 5
    }
  }

  datatype Event = Event(
    timestamp: Time,
    processId: uint32,
    processName: string,
    eventType: ActivityType,
    localAddress: string,
    remoteAddress: string,
    protocol: Protocol,
    uploadedBytes: uint64,
    downloadedBytes: uint64,
    description: string)
  {
    function Bytes(d: Direction): uint64 {
      if d == Upload then uploadedBytes else downloadedBytes
    }
  }

  /** The order shared by the history, the builder and the query. */
  predicate EarlierThan(a: Event, b: Event) {
    if a.timestamp != b.timestamp then a.timestamp < b.timestamp
    else if a.processId != b.processId then a.processId < b.processId
    else a.eventType.Code() < b.eventType.Code()
  }

  predicate Equivalent(a: Event, b: Event) {
    !EarlierThan(a, b) && !EarlierThan(b, a)
  }

  ghost predicate Sorted(s: seq<Event>) {
    forall i, j | 0 <= i < j < |s| :: !EarlierThan(s[j], s[i])
  }

  /** `a`, `b` and `c` stand in order, so `a` and `c` do. */
  lemma {:induction false} InOrder(a: Event, b: Event, c: Event)
    requires !EarlierThan(b, a) && !EarlierThan(c, b)
    ensures !EarlierThan(c, a)
    ensures !(EarlierThan(a, b) && EarlierThan(b, a))
  {
  }

  /** The enumerators in the order that breaks ties. */
  const LIFE_CYCLE: seq<ActivityType> :=
    [PROCESS_SEEN, CONNECTION_OPENED, UPLOAD_ACTIVITY, DOWNLOAD_ACTIVITY, CONNECTION_CLOSED, SUSPICIOUS_ACTIVITY]

  /** The order is by time, then by PID, then by the kind's place in the life cycle. */
  lemma {:induction false} OrderMeans(a: Event, b: Event)
    ensures EarlierThan(a, b) <==>
      || a.timestamp < b.timestamp
      || (a.timestamp == b.timestamp && a.processId < b.processId)
      || (a.timestamp == b.timestamp && a.processId == b.processId &&
        exists i, j :: 0 <= i < j < |LIFE_CYCLE| && LIFE_CYCLE[i] == a.eventType && LIFE_CYCLE[j] == b.eventType)
  {
    assert LIFE_CYCLE[a.eventType.Code()] == a.eventType && LIFE_CYCLE[b.eventType.Code()] == b.eventType;
    forall i, t: ActivityType | 0 <= i < |LIFE_CYCLE| && LIFE_CYCLE[i] == t ensures i == t.Code() {
    }
  }

  function Filter(s: seq<Event>, p: Event -> bool): seq<Event> {
    if s == [] then []
    else Filter(s[..|s| - 1], p) + if p(s[|s| - 1]) then [s[|s| - 1]] else []
  }

  /** The events equivalent to `e`, in their order. */
  function Class(s: seq<Event>, e: Event): seq<Event> {
    Filter(s, x => Equivalent(x, e))
  }

  ghost predicate SameClasses(s: seq<Event>, t: seq<Event>) {
    forall e: Event :: Class(s, e) == Class(t, e)
  }

  /** Inserts behind everything that is not later. */
  function Insert(s: seq<Event>, e: Event): seq<Event> {
    if s == [] || !EarlierThan(e, s[|s| - 1]) then s + [e]
    else Insert(s[..|s| - 1], e) + [s[|s| - 1]]
  }

  function StableSort(s: seq<Event>): seq<Event> {
    if s == [] then [] else Insert(StableSort(s[..|s| - 1]), s[|s| - 1])
  }

  // ----- Filters

  lemma {:induction false} FilterStep(s: seq<Event>, e: Event, p: Event -> bool)
    ensures Filter(s + [e], p) == if p(e) then Filter(s, p) + [e] else Filter(s, p)
  {
    assert (s + [e])[..|s|] == s;
  }

  lemma {:induction false} FilterConcat(a: seq<Event>, b: seq<Event>, p: Event -> bool)
    ensures Filter(a + b, p) == Filter(a, p) + Filter(b, p)
  {
    if b == [] {
      assert a + b == a;
    } else {
      assert (a + b)[..|a + b| - 1] == a + b[..|b| - 1];
      FilterConcat(a, b[..|b| - 1], p);
    }
  }

  lemma {:induction false} FilterMembers(s: seq<Event>, p: Event -> bool)
    ensures forall e :: e in Filter(s, p) <==> e in s && p(e)
    ensures |Filter(s, p)| <= |s|
  {
    if s != [] {
      FilterMembers(s[..|s| - 1], p);
      assert s == s[..|s| - 1] + [s[|s| - 1]];
    }
  }

  lemma {:induction false} FilterAll(s: seq<Event>, p: Event -> bool)
    requires forall e | e in s :: p(e)
    ensures Filter(s, p) == s
  {
    if s != [] {
      FilterAll(s[..|s| - 1], p);
      assert s == s[..|s| - 1] + [s[|s| - 1]];
    }
  }

  lemma {:induction false} FilterNone(s: seq<Event>, p: Event -> bool)
    requires forall e | e in s :: !p(e)
    ensures Filter(s, p) == []
  {
    if s != [] {
      FilterNone(s[..|s| - 1], p);
      assert s == s[..|s| - 1] + [s[|s| - 1]];
    }
  }

  lemma {:induction false} FilterTwice(s: seq<Event>, p: Event -> bool, q: Event -> bool)
    requires forall e | p(e) :: q(e)
    ensures Filter(Filter(s, q), p) == Filter(s, p)
  {
    if s != [] {
      var front, e := s[..|s| - 1], s[|s| - 1];
      assert s == front + [e];
      FilterTwice(front, p, q);
      FilterStep(front, e, p);
      FilterStep(front, e, q);
      FilterStep(Filter(front, q), e, p);
    }
  }

  lemma {:induction false} FilterSorted(s: seq<Event>, p: Event -> bool)
    requires Sorted(s)
    ensures Sorted(Filter(s, p))
  {
    if s != [] {
      hide Filter, EarlierThan;
      var front, e := s[..|s| - 1], s[|s| - 1];
      assert s == front + [e];
      SortedFront(front, e);
      FilterSorted(front, p);
      FilterStep(front, e, p);
      FilterMembers(front, p);
      if p(e) {
        var f := Filter(front, p);
        assert forall i | 0 <= i < |f| :: f[i] in front;
      }
    }
  }

  // ----- Sorting

  lemma {:induction false} SortedFront(s: seq<Event>, e: Event)
    requires Sorted(s + [e])
    ensures Sorted(s) && forall x | x in s :: !EarlierThan(e, x)
  {
    hide EarlierThan;
    var t := s + [e];
    assert forall i | 0 <= i < |s| :: t[i] == s[i];
    assert t[|s|] == e;
  }

  lemma {:induction false} SortedAppend(s: seq<Event>, e: Event)
    requires Sorted(s) && (s != [] ==> !EarlierThan(e, s[|s| - 1]))
    ensures Sorted(s + [e]) && forall x | x in s :: !EarlierThan(e, x)
  {
    hide EarlierThan;
    forall i | 0 <= i < |s| ensures !EarlierThan(e, s[i]) {
      if i < |s| - 1 {
        InOrder(s[i], s[|s| - 1], e);
      }
    }
  }

  lemma {:induction false} InsertSorts(s: seq<Event>, e: Event)
    requires Sorted(s)
    ensures Sorted(Insert(s, e)) && multiset(Insert(s, e)) == multiset(s) + multiset{e}
  {
    hide EarlierThan;
    if s == [] || !EarlierThan(e, s[|s| - 1]) {
      SortedAppend(s, e);
    } else {
      var front, x := s[..|s| - 1], s[|s| - 1];
      assert s == front + [x];
      SortedFront(front, x);
      InsertSorts(front, e);
      var r := Insert(front, e);
      assert r[|r| - 1] in multiset(r);
      assert r[|r| - 1] == e || r[|r| - 1] in front;
      Asymmetric(e, x);
      SortedAppend(r, x);
    }
  }

  lemma {:induction false} Asymmetric(a: Event, b: Event)
    requires EarlierThan(a, b)
    ensures !EarlierThan(b, a)
  {
  }

  lemma {:induction false} StableSortSorts(s: seq<Event>)
    ensures Sorted(StableSort(s)) && multiset(StableSort(s)) == multiset(s) && |StableSort(s)| == |s|
  {
    hide Insert;
    if s == [] {
    } else {
      hide Sorted;
      StableSortSorts(s[..|s| - 1]);
      InsertSorts(StableSort(s[..|s| - 1]), s[|s| - 1]);
      assert s == s[..|s| - 1] + [s[|s| - 1]];
    }
    assert |multiset(StableSort(s))| == |multiset(s)|;
  }

  lemma {:induction false} InsertAppends(s: seq<Event>, e: Event)
    requires forall x | x in s :: !EarlierThan(e, x)
    ensures Insert(s, e) == s + [e]
  {
  }

  lemma {:induction false} InsertBefore(s: seq<Event>, x: Event, e: Event)
    requires EarlierThan(e, x)
    ensures Insert(s + [x], e) == Insert(s, e) + [x]
  {
    assert (s + [x])[..|s|] == s;
  }

  lemma {:induction false} InsertFilter(s: seq<Event>, e: Event, p: Event -> bool)
    requires Sorted(s)
    ensures Filter(Insert(s, e), p) == if p(e) then Insert(Filter(s, p), e) else Filter(s, p)
  {
    hide Filter, EarlierThan;
    if s == [] || !EarlierThan(e, s[|s| - 1]) {
      SortedAppend(s, e);
      FilterStep(s, e, p);
      FilterMembers(s, p);
      InsertAppends(Filter(s, p), e);
    } else {
      var front, x := s[..|s| - 1], s[|s| - 1];
      assert s == front + [x];
      SortedFront(front, x);
      InsertFilter(front, e, p);
      FilterStep(front, x, p);
      FilterStep(Insert(front, e), x, p);
      InsertBefore(front, x, e);
      InsertBefore(Filter(front, p), x, e);
    }
  }

  lemma {:induction false} SortStep(s: seq<Event>, e: Event)
    ensures StableSort(s + [e]) == Insert(StableSort(s), e)
  {
    assert (s + [e])[..|s|] == s;
  }

  /** Filtering commutes with stable sorting. */
  lemma {:induction false} FilterCommutes(s: seq<Event>, p: Event -> bool)
    ensures Filter(StableSort(s), p) == StableSort(Filter(s, p))
  {
    if s == [] {
    } else {
      hide *;
      var front, e := s[..|s| - 1], s[|s| - 1];
      assert s == front + [e];
      FilterCommutes(front, p);
      StableSortSorts(front);
      InsertFilter(StableSort(front), e, p);
      SortStep(front, e);
      SortStep(Filter(front, p), e);
      FilterStep(front, e, p);
    }
  }

  /** Sorting what is sorted changes nothing. */
  lemma {:induction false} SortIdempotent(s: seq<Event>)
    requires Sorted(s)
    ensures StableSort(s) == s
  {
    if s != [] {
      hide EarlierThan;
      var front, e := s[..|s| - 1], s[|s| - 1];
      assert s == front + [e];
      SortedFront(front, e);
      SortIdempotent(front);
      InsertAppends(front, e);
    }
  }

  /** Equivalent events keep their order. */
  lemma {:induction false} SortIsStable(s: seq<Event>)
    ensures SameClasses(StableSort(s), s)
  {
    hide Filter, StableSort, EarlierThan;
    forall e: Event ensures Class(StableSort(s), e) == Class(s, e) {
      var p := x => Equivalent(x, e);
      var f := Filter(s, p);
      FilterCommutes(s, p);
      FilterMembers(s, p);
      forall i, j | 0 <= i < j < |f| ensures !EarlierThan(f[j], f[i]) {
        assert f[i] in f && f[j] in f;
        InOrder(f[i], e, f[j]);
      }
      SortIdempotent(f);
    }
  }

  /** The last element of one sequence has an equivalent one in the other, which is not later than its last. */
  lemma {:induction false} LastBound(s: seq<Event>, t: seq<Event>)
    requires s != [] && Sorted(t) && SameClasses(s, t)
    ensures t != [] && !EarlierThan(t[|t| - 1], s[|s| - 1])
  {
    var e := s[|s| - 1];
    assert !EarlierThan(e, e);
    hide Filter, EarlierThan;
    var p := x => Equivalent(x, e);
    FilterMembers(s, p);
    FilterMembers(t, p);
    assert Class(s, e) == Class(t, e);
    assert e in Filter(t, p);
    var i :| 0 <= i < |t| && t[i] == e;
  }

  lemma {:induction false} SameLast(s: seq<Event>, t: seq<Event>)
    requires Sorted(s) && Sorted(t) && SameClasses(s, t) && s != [] && t != []
    ensures s[|s| - 1] == t[|t| - 1]
  {
    var a, b := s[|s| - 1], t[|t| - 1];
    assert !EarlierThan(a, a);
    hide Filter, EarlierThan, Sorted;
    LastBound(s, t);
    LastBound(t, s);
    var p := x => Equivalent(x, a);
    assert s == s[..|s| - 1] + [a] && t == t[..|t| - 1] + [b];
    FilterStep(s[..|s| - 1], a, p);
    FilterStep(t[..|t| - 1], b, p);
    assert p(a) && p(b);
    assert Class(s, a) == Class(t, a);
    var f, g := Filter(s, p), Filter(t, p);
    assert f[|f| - 1] == a && g[|g| - 1] == b;
  }

  /** A sorted sequence is determined by the order of its equivalent elements. */
  lemma {:induction false} SortedUnique(s: seq<Event>, t: seq<Event>)
    requires Sorted(s) && Sorted(t) && SameClasses(s, t)
    ensures s == t
    decreases |s|
  {
    hide Filter, EarlierThan, Sorted;
    if s == [] {
      if t != [] {
        LastBound(t, s);
      }
    } else {
      LastBound(s, t);
      SameLast(s, t);
      var e := s[|s| - 1];
      var s', t' := s[..|s| - 1], t[..|t| - 1];
      assert s == s' + [e] && t == t' + [e];
      SortedFront(s', e);
      SortedFront(t', e);
      forall c: Event ensures Class(s', c) == Class(t', c) {
        var p := x => Equivalent(x, c);
        FilterStep(s', e, p);
        FilterStep(t', e, p);
        assert Class(s, c) == Class(t, c);
        assert p(e) ==> (Filter(s', p) + [e])[..|Filter(s', p)|] == Filter(s', p);
        assert p(e) ==> (Filter(t', p) + [e])[..|Filter(t', p)|] == Filter(t', p);
      }
      SortedUnique(s', t');
    }
  }

  /** There is only one stable sort. */
  lemma {:induction false} StableSortIsUnique(s: seq<Event>, t: seq<Event>)
    ensures Sorted(t) && SameClasses(t, s) <==> t == StableSort(s)
  {
    hide Class, Sorted, StableSort;
    StableSortSorts(s);
    SortIsStable(s);
    if Sorted(t) && SameClasses(t, s) {
      SortedUnique(t, StableSort(s));
    }
  }

  // ----- Lookups

  function OfProcess(pid: uint32): Event -> bool {
    (e: Event) => e.processId == pid
  }

  function Named(name: string): Event -> bool {
    (e: Event) => e.processName == name
  }

  function OfType(t: ActivityType): Event -> bool {
    (e: Event) => e.eventType == t
  }

  /** What a lookup returns: the events that match, in order. */
  lemma {:induction false} LookupMembers(s: seq<Event>, p: Event -> bool)
    ensures Sorted(StableSort(Filter(s, p)))
    ensures forall e :: e in StableSort(Filter(s, p)) <==> e in s && p(e)
  {
    hide StableSort, Filter, Sorted;
    FilterMembers(s, p);
    var matched := Filter(s, p);
    StableSortSorts(matched);
    forall e ensures e in StableSort(matched) <==> e in matched {
      assert multiset(StableSort(matched))[e] == multiset(matched)[e];
    }
  }

  /** The newest `limit` events in chronological order; a limit of zero is no limit. */
  function Latest(s: seq<Event>, limit: nat): seq<Event> {
    var t := StableSort(s);
    if limit == 0 || limit >= |t| then t else t[|t| - limit..]
  }

  /** `older` and `t` divide the events of `s`: `t` holds as many as the limit allows, both are in
  chronological order, equivalent events in their order of arrival, and nothing in `older` is later
  than anything in `t`. */
  ghost predicate Divides(older: seq<Event>, t: seq<Event>, s: seq<Event>, limit: nat) {
    && |t| == (if limit == 0 || limit >= |s| then |s| else limit)
    && multiset(older) + multiset(t) == multiset(s)
    && Sorted(older) && Sorted(t) && SameClasses(older + t, s)
    && forall x, e | x in older && e in t :: !EarlierThan(e, x)
  }

  /** Only the latest events divide the events in this way. */
  lemma {:induction false} LatestDivides(s: seq<Event>, t: seq<Event>, limit: nat)
    ensures t == Latest(s, limit) <==> exists older :: Divides(older, t, s, limit)
  {
    hide StableSort, EarlierThan, Class;
    StableSortSorts(s);
    var sorted := StableSort(s);
    var n := if limit == 0 || limit >= |s| then |s| else limit;
    var k := |s| - n;
    assert Latest(s, limit) == sorted[k..];
    if t == Latest(s, limit) {
      assert sorted == sorted[..k] + t;
      SortIsStable(s);
      SortedSplit(sorted, k);
      assert Divides(sorted[..k], t, s, limit);
    }
    if older :| Divides(older, t, s, limit) {
      assert |multiset(older) + multiset(t)| == |older| + |t| && |multiset(s)| == |s|;
      SortedJoin(older, t);
      StableSortIsUnique(s, older + t);
      assert (older + t)[k..] == t;
    }
  }

  lemma {:induction false} SortedSplit(t: seq<Event>, k: nat)
    requires Sorted(t) && k <= |t|
    ensures Sorted(t[..k]) && Sorted(t[k..])
    ensures forall x, e | x in t[..k] && e in t[k..] :: !EarlierThan(e, x)
  {
    hide EarlierThan;
  }

  lemma {:induction false} SortedJoin(a: seq<Event>, b: seq<Event>)
    requires Sorted(a) && Sorted(b) && forall x, e | x in a && e in b :: !EarlierThan(e, x)
    ensures Sorted(a + b)
  {
    hide EarlierThan;
  }

  /** The loop of every lookup. */
  method Matching(s: seq<Event>, p: Event -> bool) returns (matched: seq<Event>)
    ensures matched == Filter(s, p)
  {
    matched := [];
    assert s[..0] == [];
    for i := 0 to |s|
      invariant matched == Filter(s[..i], p)
    {
      assert s[..i + 1][..i] == s[..i];
      if p(s[i]) {
        matched := matched + [s[i]];
      }
    }
    assert s[..|s|] == s;
  }

  // ----- Buckets

  /** The buckets hold the events of each process in order, and no empty bucket exists. */
  ghost predicate Bucketed(s: seq<Event>, buckets: map<uint32, seq<Event>>) {
    && (forall e | e in s :: e.processId in buckets)
    && forall pid | pid in buckets :: buckets[pid] == Filter(s, OfProcess(pid)) && buckets[pid] != []
  }

  lemma {:induction false} NoBuckets()
    ensures Bucketed([], map[])
  {
  }

  lemma {:induction false} Bucket(s: seq<Event>, buckets: map<uint32, seq<Event>>, e: Event)
    requires Bucketed(s, buckets)
    ensures var pid := e.processId;
      Bucketed(s + [e], buckets[pid := (if pid in buckets then buckets[pid] else []) + [e]])
  {
    hide Filter;
    var pid := e.processId;
    forall p: uint32 ensures Filter(s + [e], OfProcess(p)) == if p == pid then Filter(s, OfProcess(p)) + [e]
      else Filter(s, OfProcess(p)) {
      FilterStep(s, e, OfProcess(p));
    }
    if pid !in buckets {
      FilterNone(s, OfProcess(pid));
    }
  }
}
