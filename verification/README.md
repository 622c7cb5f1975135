# Read-through page cache with access counting

A Dafny model of the page cache in `0x02-redis_basic/web.py`: the `invoker`
that the `data_cacher` decorator wraps around a page fetcher. Each call for a
URL increments the Redis counter `count:<url>`, reads `result:<url>`, returns
the cached page when that read is truthy, and otherwise calls the fetcher,
stores its page under `result:<url>` with a ten-second expiry, and returns it.

The model has four modules:

- `Wrappers` (`wrappers.dfy`): `Option` and `Result`.
- `RedisStore` (`redis_store.dfy`): the Redis keyspace as an immutable map
  from string keys to entries. An entry holds an integer or a string, plus an
  optional absolute deadline. The three commands the cache uses are pure
  functions of the store and an integer clock: `Incr`, `Get` and `SetEx`.
  As in Redis, an entry is readable up to and including its deadline and
  absent once the clock has passed it. INCR fails on a string or on the
  largest 64-bit integer. It keeps a live key's expiry, and it restarts an
  absent or expired key at 1 with no expiry.
- `Web` (`web.dfy`): the two key families and the invoker itself, `Invoke`.
  It takes a store, the time, the URL, and the outcome the wrapped fetcher
  would produce: a page together with the seconds the fetch took, or an
  error. It returns the reply (the page or the raised error), the new
  store, and the list of URLs handed to the fetcher. That list is empty on a
  hit and `[url]` on a miss.
- `WebRuns` (`web_runs.dfy`): sequences of calls (`Run`) and the counting
  properties over them.

INCR and GET happen at the call time. SETEX happens when the fetcher returns,
so a page fetched by a call at `t0` that took `d` seconds has deadline
`t0 + d + 10`. The expiry boundary follows the store's rule: the page is still
served at exactly its deadline and is a miss at any later time. The
ten-second lifetime is the constant `Web.CacheTtl`, and the key prefixes are
fixed, because web.py hard-codes both (lines 20, 23 and 29).

## Model

| member | source | states |
|---|---|---|
| `RedisStore.Incr` | 0x02-redis_basic/web.py:20 | INCR succeeds exactly when the key is absent, expired or holds an integer below 2^63-1. On success the reply is the old value plus one, an absent or expired key counting as 0. The key then holds that value, keeps its expiry if it was live, and no other key changes. Otherwise the error says which limit was hit. |
| `RedisStore.Get` | 0x02-redis_basic/web.py:23 | GET replies exactly when the key is present and not past its deadline. A stored string comes back unchanged, and a stored integer is never the empty reply. |
| `RedisStore.SetEx` | 0x02-redis_basic/web.py:29 | After SETEX, GET of the key returns the value at every time up to `now + ttl` and nothing later. No other key changes. |
| `Web.KeyFamiliesDisjoint` | 0x02-redis_basic/web.py:20-29 | `count:<u>` and `result:<v>` are different keys for all URLs `u` and `v`. |
| `Web.CountKeyInjective` | 0x02-redis_basic/web.py:20 | Two URLs share a counter key exactly when they are equal. |
| `Web.ResultKeyInjective` | 0x02-redis_basic/web.py:23-29 | Two URLs share a cache key exactly when they are equal. |
| `Web.Invoke` | 0x02-redis_basic/web.py:16-30 | If the counter cannot be incremented, the call raises the store error, changes nothing and does not fetch. Otherwise the counter rises by exactly 1. On a truthy cached value, that value is returned, nothing is fetched, and only the counter changes. On a miss the fetcher is called exactly once, with `url`. A fetched page is returned and stored under `result:<url>` with deadline `now + d + 10`, where `d` is how long the fetch took, and only those two keys change. A failed fetch is raised, and only the counter changes. |
| `Web.Isolation` | 0x02-redis_basic/web.py:20-29 | A call for one URL leaves the counter entry and the cache entry of every other URL unchanged. |
| `Web.FailedFetchCachesNothing` | 0x02-redis_basic/web.py:28-29 | A failed fetch on a URL with no cache entry raises, and it leaves no cache entry. |
| `Web.FreshEntryHits` | 0x02-redis_basic/web.py:23-29 | After a miss at `t0` whose fetch returned a non-empty page `d` seconds later, a call at any time up to `t0 + d + 10` returns that page without fetching. |
| `Web.ExpiredEntryRefetches` | 0x02-redis_basic/web.py:23-29 | After a miss at `t0` whose fetch returned `d` seconds later, a call after `t0 + d + 10` is a miss and fetches again. |
| `Web.EmptyPageRefetches` | 0x02-redis_basic/web.py:24 | An empty fetched page is stored but never served. The next call, at any time, fetches again. |
| `WebRuns.Run` | 0x02-redis_basic/web.py:16-30 | A sequence of calls gives one reply per call and makes no more fetches than calls. |
| `WebRuns.RunFetchesOnlyRequested` | 0x02-redis_basic/web.py:23-28 | Over any run, no URL is fetched more often than it is requested. |
| `WebRuns.CallBumpsSteadyCounter` | 0x02-redis_basic/web.py:20 | A call for a URL moves its non-expiring counter from `n` to `n + 1`, and the counter still does not expire. |
| `WebRuns.CallCounts` | 0x02-redis_basic/web.py:20 | A call raises a URL's non-expiring counter by one if the call is for that URL, and leaves it unchanged otherwise. |
| `WebRuns.RunCounts` | 0x02-redis_basic/web.py:19-20 | A run raises a URL's non-expiring counter by exactly the number of calls for that URL. This holds for hits, misses and failed fetches alike. |
| `WebRuns.CountsFromEmpty` | 0x02-redis_basic/web.py:19-20 | From an empty store, every URL's counter equals the number of calls made for it. |
| `WebRuns.Scenario` | 0x02-redis_basic/web.py:23-30 | From an empty store, a call at time 0 whose fetch takes 2 seconds caches its page until 12. Calls at 5 and 12 are hits, and a call at 13 fetches again. The four calls return the first page three times and then the second, and leave the counter at 4. |

## Left out

- The Redis client construction and module-level handle (web.py:10). The store is an explicit value passed to every call.
- The HTTP request in `get_page` (web.py:38-39). The wrapped fetcher is represented by the outcome it would produce: a page and the seconds it took to arrive, or an error. Each call of a run carries its own outcome, so a fetcher that answers differently at different times is covered.
- `bytes.decode('utf-8')` (web.py:25). Stored values and replies are strings.
- `functools.wraps` and the decorator mechanics (web.py:6, 15, 31, 33). The wrapped invoker is the function `Web.Invoke`.
- Concurrency, the atomicity of INCR, and races between concurrent misses. The model is sequential.
- The `__main__` demonstration and its printing (web.py:42-46). `WebRuns.Scenario` states the miss-then-hit behaviour the demonstration exercises, extended to expiry.
- Failures to reach the store (connection errors), and GET or INCR on keys holding Redis types other than strings. The cache never creates such keys.
- INCR on a string that spells a decimal integer. A string under a counter key stands for text that is not an integer, and INCR rejects it.
- SETEX with a non-positive expiry. The cache always passes 10, so `RedisStore.SetEx` requires a positive one.
- Time spent by the store commands themselves. INCR, GET and the call of the fetcher all happen at the call time; only the fetch is given a duration.
- Sub-second time. The clock is an integer number of seconds, where Redis keeps deadlines in milliseconds.
- RedisStore.Get: for an integer value, states only that the reply is non-empty, not that it is the decimal rendering. The cache only needs that it is truthy.
