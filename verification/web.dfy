/**
 The read-through page cache of web.py: the `invoker` that `data_cacher`
 wraps around a page fetcher. One call for `url`

   1. increments the counter `count:<url>`,
   2. reads `result:<url>`,
   3. on a non-empty cached value returns it and does nothing more,
   4. otherwise calls the fetcher with `url`, stores its page under
      `result:<url>` for ten seconds and returns the page.

 The Redis connection becomes an explicit store value and the clock an
 integer argument; the wrapped fetcher becomes the outcome it would produce
 for `url`, and the call records whether it was consulted.
 */
module Web {
  import opened Wrappers
  import opened RedisStore

  /** Seconds a fetched page stays cached. */
  const CacheTtl: int := 10

  /** Store key of the access counter of `url`. */
  function CountKey(url: string): string {
    "count:" + url
  }

  /** Store key of the cached page of `url`. */
  function ResultKey(url: string): string {
    "result:" + url
  }

  /**
   What the wrapped fetcher does when called with the URL: returns a page
   after `took` seconds, or raises. The page is written to the store when the
   fetcher returns, so its lifetime starts `took` seconds after the call.
   */
  datatype FetchOutcome = Fetched(body: string, took: nat) | FetchFailed(reason: string)

  /** Why a call raised: the store refused INCR, or the fetcher raised. */
  datatype CallError = StoreFailed(cause: StoreError) | FetchError(reason: string)

  /** One call of the cache: its reply, the store afterwards, and the URLs handed to the fetcher. */
  datatype Call = Call(reply: Result<string, CallError>, store: Store, fetches: seq<string>)

  /** The counter of `url` as INCR sees it at time `now`; none when it holds a string. */
  function Count(store: Store, url: string, now: int): Option<int> {
    IntValue(store, CountKey(url), now)
  }

  /** The counter of `url` can be incremented at time `now`. */
  predicate CanCount(store: Store, url: string, now: int) {
    Incrementable(store, CountKey(url), now)
  }

  /** What GET returns for the cached page of `url` at time `now`. */
  function Cached(store: Store, url: string, now: int): Option<string> {
    Get(store, ResultKey(url), now)
  }

  /** Python truthiness of a GET reply: absent and empty are both false. */
  predicate Truthy(reply: Option<string>) {
    reply.Some? && reply.value != ""
  }

  /** A call for `url` at time `now` would be answered from the cache. */
  predicate Hit(store: Store, url: string, now: int) {
    Truthy(Cached(store, url, now))
  }

  /** No counter key is ever a cache key: the prefixes differ in their first letter. */
  lemma KeyFamiliesDisjoint(u: string, v: string)
    ensures CountKey(u) != ResultKey(v)
  {
    assert CountKey(u)[0] == 'c' && ResultKey(v)[0] == 'r';
  }

  /** Distinct URLs have distinct counters. */
  lemma CountKeyInjective(u: string, v: string)
    ensures CountKey(u) == CountKey(v) <==> u == v
  {
    if CountKey(u) == CountKey(v) {
      assert u == CountKey(u)[6..];
      assert v == CountKey(v)[6..];
    }
  }

  /** Distinct URLs have distinct cache entries. */
  lemma ResultKeyInjective(u: string, v: string)
    ensures ResultKey(u) == ResultKey(v) <==> u == v
  {
    if ResultKey(u) == ResultKey(v) {
      assert u == ResultKey(u)[7..];
      assert v == ResultKey(v)[7..];
    }
  }

  /**
   One call of the cache for `url` at time `now`, where `fetch` is what the
   wrapped fetcher would do if called.
   */
  function Invoke(store: Store, now: int, url: string, fetch: FetchOutcome): (c: Call)
    // The counter comes first: when INCR fails, the call raises and nothing else happens.
    ensures !CanCount(store, url, now) ==>
      c.reply.Failure? && c.reply.error.StoreFailed? && c.store == store && c.fetches == []
    // Otherwise the counter goes up by exactly one, hit or miss, fetched or failed.
    ensures CanCount(store, url, now) ==>
      Count(c.store, url, now) == Some(Count(store, url, now).value + 1)
    // Hit: the cached page comes back unchanged, the fetcher is not consulted,
    // and only the counter changes.
    ensures CanCount(store, url, now) && Hit(store, url, now) ==>
      && c.reply == Success(Cached(store, url, now).value)
      && c.fetches == []
      && SameExcept(store, c.store, {CountKey(url)})
    // Miss: the fetcher is consulted exactly once, with `url`.
    ensures CanCount(store, url, now) && !Hit(store, url, now) ==> c.fetches == [url]
    // A fetched page is returned and cached for CacheTtl seconds from the moment the
    // fetcher returned; nothing else but the counter changes.
    ensures CanCount(store, url, now) && !Hit(store, url, now) && fetch.Fetched? ==>
      && c.reply == Success(fetch.body)
      && ResultKey(url) in c.store
      && c.store[ResultKey(url)] == Entry(Text(fetch.body), Some(now + fetch.took + CacheTtl))
      && SameExcept(store, c.store, {CountKey(url), ResultKey(url)})
    // A failed fetch is raised to the caller; the counter stays bumped and the cache is not written.
    ensures CanCount(store, url, now) && !Hit(store, url, now) && fetch.FetchFailed? ==>
      && c.reply == Failure(FetchError(fetch.reason))
      && SameExcept(store, c.store, {CountKey(url)})
  {
    match Incr(store, CountKey(url), now)
    case Failure(e) => Call(Failure(StoreFailed(e)), store, [])
    case Success((_, counted)) =>
      var cachedPage := Get(counted, ResultKey(url), now);
      if Truthy(cachedPage) then
        Call(Success(cachedPage.value), counted, [])
      else
        match fetch
        case FetchFailed(reason) => Call(Failure(FetchError(reason)), counted, [url])
        case Fetched(body, took) =>
          Call(Success(body), SetEx(counted, ResultKey(url), CacheTtl, body, now + took), [url])
  }

  /** A call for one URL leaves the counter and the cache entry of every other URL alone. */
  lemma Isolation(store: Store, now: int, url: string, other: string, fetch: FetchOutcome)
    requires url != other
    ensures Agree(store, Invoke(store, now, url, fetch).store, CountKey(other))
    ensures Agree(store, Invoke(store, now, url, fetch).store, ResultKey(other))
  {
    CountKeyInjective(url, other);
    ResultKeyInjective(url, other);
    KeyFamiliesDisjoint(url, other);
    KeyFamiliesDisjoint(other, url);
  }

  /** A failed fetch on a cold URL leaves it cold: no cache entry is created. */
  lemma FailedFetchCachesNothing(store: Store, now: int, url: string, reason: string)
    requires ResultKey(url) !in store
    ensures ResultKey(url) !in Invoke(store, now, url, FetchFailed(reason)).store
    ensures Invoke(store, now, url, FetchFailed(reason)).reply.Failure?
  {
  }

  /**
   After a miss at time t0 whose fetch returned a non-empty page `took`
   seconds later, a call for the same URL at any time up to
   t0 + took + CacheTtl returns that page without fetching.
   */
  lemma FreshEntryHits(store: Store, t0: int, url: string, body: string, took: nat, t1: int, fetch: FetchOutcome)
    requires CanCount(store, url, t0) && !Hit(store, url, t0)
    requires body != ""
    requires t1 <= t0 + took + CacheTtl
    requires CanCount(Invoke(store, t0, url, Fetched(body, took)).store, url, t1)
    ensures Invoke(Invoke(store, t0, url, Fetched(body, took)).store, t1, url, fetch).reply == Success(body)
    ensures Invoke(Invoke(store, t0, url, Fetched(body, took)).store, t1, url, fetch).fetches == []
  {
  }

  /**
   After a miss at time t0 whose fetch returned a page `took` seconds later,
   a call for the same URL once the clock has passed t0 + took + CacheTtl is
   a miss and consults the fetcher again.
   */
  lemma ExpiredEntryRefetches(store: Store, t0: int, url: string, body: string, took: nat, t1: int, fetch: FetchOutcome)
    requires CanCount(store, url, t0) && !Hit(store, url, t0)
    requires t1 > t0 + took + CacheTtl
    requires CanCount(Invoke(store, t0, url, Fetched(body, took)).store, url, t1)
    ensures Invoke(Invoke(store, t0, url, Fetched(body, took)).store, t1, url, fetch).fetches == [url]
  {
  }

  /**
   An empty page is cached but never served: the next call for the URL, at
   any time, is a miss and fetches again, because the hit test is truthiness.
   */
  lemma EmptyPageRefetches(store: Store, t0: int, url: string, took: nat, t1: int, fetch: FetchOutcome)
    requires CanCount(store, url, t0) && !Hit(store, url, t0)
    requires CanCount(Invoke(store, t0, url, Fetched("", took)).store, url, t1)
    ensures ResultKey(url) in Invoke(store, t0, url, Fetched("", took)).store
    ensures Invoke(Invoke(store, t0, url, Fetched("", took)).store, t1, url, fetch).fetches == [url]
  {
  }
}
