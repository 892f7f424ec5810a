/**
 * The state machine shared by the products and users stores: a visible
 * record (items, total, loading, error) and a memo cache from query key to
 * the response stored under it.
 *
 * A fetch is a sequence of atomic steps on one store: `Request(key)` is the
 * synchronous part of a call (a cache hit, or the start of a miss), and the
 * awaited request later settles with `Succeed` or `Fail`. Several misses may
 * be outstanding; their settles arrive in any order.
 */
module ResourceCache {
  import opened Wrappers
  import opened Api

  datatype Entry<T> = Entry(items: seq<T>, total: int)

  datatype StoreState<T> = StoreState(
    items: seq<T>,
    total: int,
    loading: bool,
    error: Option<string>,
    cache: map<string, Entry<T>>)
  {
    /** What the page shows: the visible items and total. */
    function View(): Entry<T> {
      Entry(items, total)
    }
  }

  function Initial<T>(): StoreState<T> {
    StoreState([], 0, false, None, map[])
  }

  datatype Event<T> = Request(key: string) | Succeed(key: string, entry: Entry<T>) | Fail(message: string)

  /** One atomic step of a store. */
  function Step<T>(s: StoreState<T>, e: Event<T>): (r: StoreState<T>)
    ensures s.cache.Keys <= r.cache.Keys
    ensures r.loading ==> s.loading || (e.Request? && e.key !in s.cache)
    ensures r.error != s.error ==> (e.Request? && e.key !in s.cache && r.error == None) || e.Fail?
  {
    match e
    case Request(k) =>
      if k in s.cache then s.(items := s.cache[k].items, total := s.cache[k].total)
      else s.(loading := true, error := None)
    case Succeed(k, entry) =>
      s.(items := entry.items, total := entry.total, cache := s.cache[k := entry], loading := false)
    case Fail(m) =>
      s.(error := Some(m), loading := false)
  }

  /** The state after a sequence of steps. */
  function Run<T>(s: StoreState<T>, events: seq<Event<T>>): StoreState<T>
    decreases |events|
  {
    if events == [] then s else Step(Run(s, events[..|events| - 1]), events[|events| - 1])
  }

  lemma RunSnoc<T>(s: StoreState<T>, events: seq<Event<T>>, e: Event<T>)
    ensures Run(s, events + [e]) == Step(Run(s, events), e)
  {
    assert (events + [e])[..|events|] == events;
  }

  /** Runs of up to four steps, spelled out. */
  lemma RunShort<T>(s: StoreState<T>, e1: Event<T>, e2: Event<T>, e3: Event<T>, e4: Event<T>)
    ensures Run(s, [e1]) == Step(s, e1)
    ensures Run(s, [e1, e2]) == Step(Step(s, e1), e2)
    ensures Run(s, [e1, e2, e3]) == Step(Step(Step(s, e1), e2), e3)
    ensures Run(s, [e1, e2, e3, e4]) == Step(Step(Step(Step(s, e1), e2), e3), e4)
  {
    assert [e1] == [] + [e1];
    RunSnoc(s, [], e1);
    assert [e1, e2] == [e1] + [e2];
    RunSnoc(s, [e1], e2);
    assert [e1, e2, e3] == [e1, e2] + [e3];
    RunSnoc(s, [e1, e2], e3);
    assert [e1, e2, e3, e4] == [e1, e2, e3] + [e4];
    RunSnoc(s, [e1, e2, e3], e4);
  }

  /** The step with which an awaited request for `key` settles. */
  function Settlement<T>(key: string, outcome: ApiOutcome<T>, fallback: string): (e: Event<T>)
    ensures outcome.Loaded? ==> e == Succeed(key, Entry(outcome.items, outcome.total))
    ensures outcome.Failed? ==> e == Fail(ErrorMessage(outcome.message, fallback))
  {
    match outcome
    case Loaded(items, total) => Succeed(key, Entry(items, total))
    case Failed(m) => Fail(ErrorMessage(m, fallback))
  }

  predicate IsSettle<T>(e: Event<T>) {
    e.Succeed? || e.Fail?
  }

  /** Some step of `events` writes cache entry `k`. */
  predicate Writes<T>(events: seq<Event<T>>, k: string) {
    exists i :: 0 <= i < |events| && events[i].Succeed? && events[i].key == k
  }

  /** The request at position `i` was a miss and nothing has settled since. */
  predicate MissInFlight<T>(s: StoreState<T>, events: seq<Event<T>>, i: int)
    requires 0 <= i < |events|
  {
    && events[i].Request?
    && events[i].key !in Run(s, events[..i]).cache
    && forall j :: i < j < |events| ==> !IsSettle(events[j])
  }

  lemma {:induction false} RunAppend<T>(s: StoreState<T>, a: seq<Event<T>>, b: seq<Event<T>>)
    ensures Run(s, a + b) == Run(Run(s, a), b)
    decreases |b|
  {
    if b == [] {
      assert a + b == a;
    } else {
      var b' := b[..|b| - 1];
      assert (a + b)[..|a + b| - 1] == a + b';
      RunAppend(s, a, b');
    }
  }

  /**
   * The cache only grows: no key is ever dropped, and an entry changes only
   * when a later success writes the same key again.
   */
  lemma {:induction false} CacheOnlyGrows<T>(s: StoreState<T>, events: seq<Event<T>>)
    ensures forall k :: k in s.cache ==> k in Run(s, events).cache
    ensures forall k :: k in s.cache && !Writes(events, k) ==> Run(s, events).cache[k] == s.cache[k]
    ensures forall k :: k in Run(s, events).cache ==> k in s.cache || Writes(events, k)
    decreases |events|
  {
    if events != [] {
      var init := events[..|events| - 1];
      var last := events[|events| - 1];
      CacheOnlyGrows(s, init);
      forall k | Writes(init, k) ensures Writes(events, k) {
        var i :| 0 <= i < |init| && init[i].Succeed? && init[i].key == k;
        assert events[i] == init[i];
      }
      forall k | last.Succeed? && last.key == k ensures Writes(events, k) {
        assert events[|events| - 1].Succeed? && events[|events| - 1].key == k;
      }
      forall k | !Writes(events, k) ensures !Writes(init, k) {
      }
    }
  }

  /**
   * What the store shows is either what it showed at the start or one of
   * its cache entries: visible data always came through the cache.
   */
  lemma {:induction false} ViewIsCached<T>(s: StoreState<T>, events: seq<Event<T>>)
    ensures Run(s, events).View() == s.View() || Run(s, events).View() in Run(s, events).cache.Values
    decreases |events|
  {
    if events != [] {
      var init := events[..|events| - 1];
      var prev := Run(s, init);
      var r := Run(s, events);
      ViewIsCached(s, init);
      match events[|events| - 1]
      case Request(k) =>
        if k in prev.cache {
          assert r.View() == prev.cache[k];
        }
      case Succeed(k, entry) =>
        assert r.cache[k] == entry;
      case Fail(_) =>
    }
  }

  /**
   * `loading` is set only while some miss is outstanding: a miss request
   * was issued and no settle has happened since.
   */
  lemma {:induction false} LoadingMeansMissInFlight<T>(s: StoreState<T>, events: seq<Event<T>>)
    requires !s.loading
    ensures Run(s, events).loading ==> exists i :: 0 <= i < |events| && MissInFlight(s, events, i)
    decreases |events|
  {
    if events != [] && Run(s, events).loading {
      var n := |events| - 1;
      var init := events[..n];
      assert events[..n] == init;
      match events[n]
      case Request(k) =>
        if k in Run(s, init).cache {
          LoadingMeansMissInFlight(s, init);
          var i :| 0 <= i < |init| && MissInFlight(s, init, i);
          assert events[..i] == init[..i];
          assert MissInFlight(s, events, i);
        } else {
          assert MissInFlight(s, events, n);
        }
      case Succeed(_, _) =>
      case Fail(_) =>
    }
  }

  /**
   * The loading flag is shared between keys: when one of two outstanding
   * misses settles, `loading` is false although the other has not answered.
   */
  lemma SharedLoadingFlag<T>(s: StoreState<T>, kA: string, kB: string, eB: Entry<T>)
    requires kA !in s.cache && kB !in s.cache && kA != kB
    ensures var r := Run(s, [Request(kA), Request(kB), Succeed(kB, eB)]);
      !r.loading && kA !in r.cache
  {
    RunShort(s, Request(kA), Request(kB), Succeed(kB, eB), Succeed(kB, eB));
  }

  /**
   * Last settled wins: A is requested, then B; B settles first, then A.
   * The visible state ends as A's response although B was requested later,
   * and both responses are cached.
   */
  lemma LastSettledWins<T>(s: StoreState<T>, kA: string, kB: string, eA: Entry<T>, eB: Entry<T>)
    requires kA !in s.cache && kB !in s.cache
    ensures var r := Run(s, [Request(kA), Request(kB), Succeed(kB, eB), Succeed(kA, eA)]);
      && r.View() == eA
      && !r.loading
      && r.error == None
      && r.cache == s.cache[kB := eB][kA := eA]
  {
    RunShort(s, Request(kA), Request(kB), Succeed(kB, eB), Succeed(kA, eA));
  }

  /**
   * Two racing misses on one key both write it: the later settle
   * overwrites the earlier entry, so the cache is not write-once.
   */
  lemma DuplicateMissOverwrites<T>(s: StoreState<T>, k: string, e1: Entry<T>, e2: Entry<T>)
    requires k !in s.cache
    ensures Run(s, [Request(k), Request(k), Succeed(k, e1), Succeed(k, e2)]).cache[k] == e2
  {
    RunShort(s, Request(k), Request(k), Succeed(k, e1), Succeed(k, e2));
  }

  /**
   * A success does not clear an error left by another request's failure:
   * the store then shows fresh data next to a stale error.
   */
  lemma SuccessKeepsOtherError<T>(s: StoreState<T>, kA: string, kB: string, m: string, eA: Entry<T>)
    requires kA !in s.cache && kB !in s.cache
    ensures var r := Run(s, [Request(kA), Request(kB), Fail(m), Succeed(kA, eA)]);
      r.View() == eA && r.error == Some(m)
  {
    RunShort(s, Request(kA), Request(kB), Fail(m), Succeed(kA, eA));
  }

  /**
   * Once a key has been filled, requesting it again serves the cached
   * response and starts no request: `loading` and `error` stay as they were.
   */
  lemma {:induction false} HitAfterSuccess<T>(s: StoreState<T>, events: seq<Event<T>>, k: string, e: Entry<T>)
    ensures var before := Run(s, events + [Succeed(k, e)]);
      var r := Run(s, events + [Succeed(k, e), Request(k)]);
      && r.View() == e
      && r.loading == before.loading == false
      && r.error == before.error
      && r.cache == before.cache
  {
    var ev := events + [Succeed(k, e), Request(k)];
    assert ev[..|ev| - 1] == events + [Succeed(k, e)];
    assert (events + [Succeed(k, e)])[..|events|] == events;
  }

  /**
   * A failure keeps the previously shown items and total (stale view on
   * error), leaves the cache alone and reports its message.
   */
  lemma {:induction false} StaleViewOnError<T>(s: StoreState<T>, events: seq<Event<T>>, m: string)
    ensures var before := Run(s, events);
      var r := Run(s, events + [Fail(m)]);
      && r.View() == before.View()
      && r.cache == before.cache
      && r.error == Some(m)
      && !r.loading
  {
    assert (events + [Fail(m)])[..|events|] == events;
  }

  /** The mutable store: the fields a Zustand store updates through `set`. */
  class ResourceStore<T> {
    var items: seq<T>
    var total: int
    var loading: bool
    var error: Option<string>
    var cache: map<string, Entry<T>>

    function State(): StoreState<T>
      reads this
    {
      StoreState(items, total, loading, error, cache)
    }

    constructor ()
      ensures State() == Initial()
    {
      items, total, loading, error, cache := [], 0, false, None, map[];
    }

    /**
     * The synchronous part of a fetch: on a hit, show the cached entry;
     * on a miss, raise `loading` and clear `error` before the request goes out.
     */
    method BeginFetch(key: string) returns (hit: bool)
      modifies this
      ensures hit <==> key in old(cache)
      ensures State() == Step(old(State()), Request(key))
      ensures hit ==> items == old(cache)[key].items && total == old(cache)[key].total
      ensures hit ==> loading == old(loading) && error == old(error)
      ensures !hit ==> loading && error == None && items == old(items) && total == old(total)
      ensures cache == old(cache)
    {
      hit := key in cache;
      if hit {
        items, total := cache[key].items, cache[key].total;
      } else {
        loading, error := true, None;
      }
    }

    /** A response arrived: show it, store it under `key`, and end loading. */
    method SettleSuccess(key: string, entry: Entry<T>)
      modifies this
      ensures State() == Step(old(State()), Succeed(key, entry))
      ensures items == entry.items && total == entry.total
      ensures cache == old(cache)[key := entry]
      ensures error == old(error) && !loading
    {
      items, total := entry.items, entry.total;
      cache := cache[key := entry];
      loading := false;
    }

    /** The request failed: report `message`, keep items, total and cache, end loading. */
    method SettleFailure(message: string)
      modifies this
      ensures State() == Step(old(State()), Fail(message))
      ensures error == Some(message) && !loading
      ensures items == old(items) && total == old(total) && cache == old(cache)
    {
      error := Some(message);
      loading := false;
    }
  }
}
