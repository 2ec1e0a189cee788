/**
 * The assistant's short-term memory: the most recent event descriptions,
 * oldest first, bounded by the configured memory size.
 */
module EventCache {

  /** The last `n` elements of `s` (all of them when there are fewer). */
  function LastN<T>(s: seq<T>, n: nat): (r: seq<T>)
    ensures |r| == (if |s| < n then |s| else n)
    ensures r == s[|s| - |r|..]
  {
    if |s| <= n then s else s[|s| - n..]
  }

  /**
   * One `AddCacheEventData` step on the contents: the oldest entry is dropped
   * when the cache already holds `memorySize` or more, then the event goes
   * last. With `memorySize <= 0` the drop is unconditional, which panics on
   * an empty cache; hence the precondition.
   */
  function AddEvent(cache: seq<string>, event: string, memorySize: int): (r: seq<string>)
    requires memorySize > 0 || |cache| > 0
    ensures |r| > 0 && r[|r| - 1] == event
    ensures |cache| < memorySize ==> r == cache + [event]
    ensures |cache| >= memorySize ==> |cache| > 0 && r == cache[1..] + [event]
  {
    if |cache| >= memorySize then cache[1..] + [event] else cache + [event]
  }

  /** With a fixed size of at least one, the bound `|cache| <= memorySize` is kept. */
  lemma AddEventBounded(cache: seq<string>, event: string, memorySize: int)
    requires memorySize >= 1 && |cache| <= memorySize
    ensures |AddEvent(cache, event, memorySize)| <= memorySize
    ensures |cache| < memorySize ==> |AddEvent(cache, event, memorySize)| == |cache| + 1
  {
  }

  /** Adding events one at a time to the cache, from left to right. */
  function AddAll(cache: seq<string>, events: seq<string>, memorySize: int): (r: seq<string>)
    requires memorySize >= 1
    decreases |events|
  {
    if |events| == 0 then cache
    else AddAll(AddEvent(cache, events[0], memorySize), events[1..], memorySize)
  }

  /** One event added to the last events of a history gives the last events of the longer history. */
  lemma AddEventLastN(history: seq<string>, event: string, memorySize: int)
    requires memorySize >= 1
    ensures AddEvent(LastN(history, memorySize), event, memorySize) == LastN(history + [event], memorySize)
  {
    var h1 := history + [event];
    if |history| < memorySize {
      assert LastN(history, memorySize) == history;
      assert LastN(h1, memorySize) == h1;
    } else {
      var l := history[|history| - memorySize..];
      assert LastN(history, memorySize) == l;
      assert l[1..] + [event] == h1[|h1| - memorySize..];
    }
  }

  lemma AddAllFirst(cache: seq<string>, events: seq<string>, memorySize: int)
    requires memorySize >= 1 && |events| > 0
    ensures AddAll(cache, events, memorySize) == AddAll(AddEvent(cache, events[0], memorySize), events[1..], memorySize)
  {
  }

  lemma SplitFirst(history: seq<string>, events: seq<string>)
    requires |events| > 0
    ensures history + [events[0]] + events[1..] == history + events
  {
    assert events == [events[0]] + events[1..];
  }

  /**
   * From a cache that already holds the last events of some history, adding
   * more events leaves the last `memorySize` events of the whole history,
   * in insertion order.
   */
  lemma {:induction false} AddAllIsLastN(history: seq<string>, events: seq<string>, memorySize: int)
    requires memorySize >= 1
    ensures AddAll(LastN(history, memorySize), events, memorySize) == LastN(history + events, memorySize)
    decreases |events|
  {
    if |events| == 0 {
      assert history + events == history;
    } else {
      var e := events[0];
      var rest := events[1..];
      var h1 := history + [e];
      var c := LastN(history, memorySize);
      AddEventLastN(history, e, memorySize);
      AddAllFirst(c, events, memorySize);
      AddAllIsLastN(h1, rest, memorySize);
      SplitFirst(history, events);
    }
  }

  /** Starting empty, the cache holds exactly the most recent `memorySize` events. */
  lemma CacheHoldsMostRecent(events: seq<string>, memorySize: int)
    requires memorySize >= 1
    ensures AddAll([], events, memorySize) == LastN(events, memorySize)
  {
    AddAllIsLastN([], events, memorySize);
    assert [] + events == events;
  }

  /** The package-level `cache_event_Data` slice, initialised lazily by a `sync.Once`. */
  class Cache {
    var data: seq<string>

    constructor ()
      ensures data == []
    {
      data := [];
    }

    /** `AddCacheEventData`, given the memory size the configuration reports. */
    method AddCacheEventData(event: string, memorySize: int)
      requires memorySize > 0 || |data| > 0
      modifies this
      ensures data == AddEvent(old(data), event, memorySize)
    {
      if |data| >= memorySize {
        data := data[1..];
      }
      data := data + [event];
    }

    /** `GetCacheEventData`: the contents, unchanged. */
    method GetCacheEventData() returns (r: seq<string>)
      ensures r == data
    {
      r := data;
    }
  }
}
