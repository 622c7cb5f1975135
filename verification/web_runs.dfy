/**
 Sequences of calls of the page cache against one store, each call with its
 own URL, time and fetcher outcome, and what they do to the access counters.
 */
module WebRuns {
  import opened Wrappers
  import opened RedisStore
  import opened Web

  /** One call: the URL asked for, the time it is made, and what the fetcher would do. */
  datatype Request = Request(url: string, at: int, fetch: FetchOutcome)

  /** Replies of a sequence of calls, the store after them, and every URL handed to the fetcher. */
  datatype Trace = Trace(replies: seq<Result<string, CallError>>, store: Store, fetches: seq<string>)

  /** How many of the requests ask for `url`. */
  function CallsFor(reqs: seq<Request>, url: string): nat {
    if reqs == [] then 0 else (if reqs[0].url == url then 1 else 0) + CallsFor(reqs[1..], url)
  }

  /** Performs the requests one after the other against `store`. */
  function Run(store: Store, reqs: seq<Request>): (t: Trace)
    ensures |t.replies| == |reqs|
    ensures |t.fetches| <= |reqs|
    decreases |reqs|
  {
    if reqs == [] then Trace([], store, [])
    else
      var c := Invoke(store, reqs[0].at, reqs[0].url, reqs[0].fetch);
      var rest := Run(c.store, reqs[1..]);
      Trace([c.reply] + rest.replies, rest.store, c.fetches + rest.fetches)
  }

  /**
   The fetcher is consulted at most once per call, and only with the URL that
   call asked for: no URL is fetched more often than it is requested.
   */
  lemma {:induction false} RunFetchesOnlyRequested(store: Store, reqs: seq<Request>, url: string)
    ensures multiset(Run(store, reqs).fetches)[url] <= CallsFor(reqs, url)
    decreases |reqs|
  {
    if reqs != [] {
      var r := reqs[0];
      var c := Invoke(store, r.at, r.url, r.fetch);
      RunFetchesOnlyRequested(c.store, reqs[1..], url);
      assert Run(store, reqs).fetches == c.fetches + Run(c.store, reqs[1..]).fetches;
      assert multiset(c.fetches)[url] <= if r.url == url then 1 else 0;
    }
  }

  /**
   The counter of `url` holds `n` and never expires, as it does in any store
   only this cache has written to.
   */
  predicate SteadyCounter(store: Store, url: string, n: int) {
    if CountKey(url) in store then store[CountKey(url)] == Entry(Num(n), None) else n == 0
  }

  /** A call for `url` moves its steady counter from n to n + 1, whatever the cache and the fetcher do. */
  lemma CallBumpsSteadyCounter(store: Store, now: int, url: string, fetch: FetchOutcome, n: int)
    requires SteadyCounter(store, url, n) && n < MaxInt64
    ensures SteadyCounter(Invoke(store, now, url, fetch).store, url, n + 1)
  {
  }

  /**
   A run raises the steady counter of `url` by exactly the number of calls
   for `url` in it, hits, misses and failed fetches alike; calls for other
   URLs leave it alone.
   */
  lemma {:induction false} RunCounts(store: Store, reqs: seq<Request>, url: string, n: int)
    requires SteadyCounter(store, url, n)
    requires n + CallsFor(reqs, url) <= MaxInt64
    ensures SteadyCounter(Run(store, reqs).store, url, n + CallsFor(reqs, url))
    decreases |reqs|
  {
    if reqs != [] {
      var r := reqs[0];
      var next := Invoke(store, r.at, r.url, r.fetch).store;
      CallCounts(store, r, url, n);
      RunCounts(next, reqs[1..], url, if r.url == url then n + 1 else n);
    }
  }

  /** One call moves the steady counter of `url` up by one if it is for `url`, and leaves it alone otherwise. */
  lemma CallCounts(store: Store, r: Request, url: string, n: int)
    requires SteadyCounter(store, url, n) && (r.url == url ==> n < MaxInt64)
    ensures SteadyCounter(Invoke(store, r.at, r.url, r.fetch).store, url, if r.url == url then n + 1 else n)
  {
    if r.url == url {
      CallBumpsSteadyCounter(store, r.at, url, r.fetch, n);
    } else {
      Isolation(store, r.at, r.url, url, r.fetch);
    }
  }

  /**
   Starting from an empty store, the counter of every URL equals the number
   of calls made for it, and it never expires.
   */
  lemma CountsFromEmpty(reqs: seq<Request>, url: string)
    requires CallsFor(reqs, url) <= MaxInt64
    ensures SteadyCounter(Run(map[], reqs).store, url, CallsFor(reqs, url))
  {
    RunCounts(map[], reqs, url, 0);
  }

  /**
   The scenario of an empty store and one URL: the first call, at time 0,
   fetches a page that takes 2 seconds to arrive, so it is cached until 12.
   Calls at 5 and 12 are served from the cache; the call at 13 fetches
   again. The counter counts all four calls.
   */
  lemma Scenario()
    ensures var t := Run(map[], [Request("A", 0, Fetched("X", 2)), Request("A", 5, FetchFailed("down")),
                                 Request("A", 12, FetchFailed("down")), Request("A", 13, Fetched("Y", 0))]);
      && t.replies == [Success("X"), Success("X"), Success("X"), Success("Y")]
      && t.fetches == ["A", "A"]
      && SteadyCounter(t.store, "A", 4)
  {
    var reqs := [Request("A", 0, Fetched("X", 2)), Request("A", 5, FetchFailed("down")),
                 Request("A", 12, FetchFailed("down")), Request("A", 13, Fetched("Y", 0))];
    var c0 := Invoke(map[], 0, "A", Fetched("X", 2));
    CallBumpsSteadyCounter(map[], 0, "A", Fetched("X", 2), 0);
    assert c0.reply == Success("X") && c0.fetches == ["A"];
    assert Cached(c0.store, "A", 5) == Some("X");
    var c1 := Invoke(c0.store, 5, "A", FetchFailed("down"));
    CallBumpsSteadyCounter(c0.store, 5, "A", FetchFailed("down"), 1);
    assert c1.reply == Success("X") && c1.fetches == [];
    assert Cached(c1.store, "A", 12) == Some("X");
    var c2 := Invoke(c1.store, 12, "A", FetchFailed("down"));
    CallBumpsSteadyCounter(c1.store, 12, "A", FetchFailed("down"), 2);
    assert c2.reply == Success("X") && c2.fetches == [];
    assert Cached(c2.store, "A", 13) == None;
    var c3 := Invoke(c2.store, 13, "A", Fetched("Y", 0));
    CallBumpsSteadyCounter(c2.store, 13, "A", Fetched("Y", 0), 3);
    assert c3.reply == Success("Y") && c3.fetches == ["A"];
    assert reqs[1..][1..][1..][1..] == [];
    assert Run(c3.store, []).fetches == [];
  }
}
