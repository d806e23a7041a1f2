/** Global and per-process timelines rebuilt from a list of events. */
module ProcessTimelineBuilder {
  import opened Model
  import opened Timeline

  class ProcessTimelineBuilder {
    var globalTimeline: seq<Event>
    var processTimelines: map<uint32, seq<Event>>

    /** The buckets are the global timeline, split by process. */
    ghost predicate Valid()
      reads this
    {
      && Sorted(globalTimeline)
      && Bucketed(globalTimeline, processTimelines)
    }

    constructor ()
      ensures Valid() && globalTimeline == []
    {
      globalTimeline, processTimelines := [], map[];
    }

    method Reset()
      modifies this
      ensures Valid() && globalTimeline == []
    {
      globalTimeline, processTimelines := [], map[];
    }

    method Build(events: seq<Event>)
      modifies this
      ensures Valid() && globalTimeline == StableSort(events)
    {
      hide Filter, StableSort, Sorted, Bucketed;
      Reset();
      StableSortSorts(events);
      if events == [] {
        assert StableSort(events) == globalTimeline by { EmptySort(); }
        return;
      }
      globalTimeline := StableSort(events);
      NoBuckets();
      for i := 0 to |globalTimeline|
        invariant globalTimeline == StableSort(events)
        invariant Bucketed(globalTimeline[..i], processTimelines)
      {
        var event := globalTimeline[i];
        assert globalTimeline[..i + 1] == globalTimeline[..i] + [event];
        Bucket(globalTimeline[..i], processTimelines, event);
        var pid := event.processId;
        processTimelines := processTimelines[pid :=
          (if pid in processTimelines then processTimelines[pid] else []) + [event]];
      }
      assert globalTimeline[..|globalTimeline|] == globalTimeline;
    }

    function GetProcessTimeline(pid: uint32): (timeline: seq<Event>)
      requires Valid()
      reads this
      ensures timeline == Filter(globalTimeline, OfProcess(pid))
    {
      if pid in processTimelines then processTimelines[pid]
      else
        FilterNone(globalTimeline, OfProcess(pid));
        []
    }
  }

  lemma {:induction false} EmptySort()
    ensures StableSort([]) == []
  {
  }
}
