/**
 The key-value store the cache talks to, reduced to the three Redis commands
 it uses: INCR, GET and SETEX. The store is one keyspace of string keys; each
 key holds either an integer (written by INCR) or a string (written by SETEX),
 optionally with an absolute deadline after which the key reads as absent.
 The clock is an integer passed to every command.
 */
module RedisStore {
  import opened Wrappers

  /** Largest value a Redis integer (a signed 64-bit integer) can hold. */
  const MaxInt64: int := 0x7fff_ffff_ffff_ffff

  /**
   What a key holds: an integer written by INCR, or a string written by SETEX.
   INCR treats every `Text` as not an integer, even one that spells a number.
   */
  datatype Data = Num(n: int) | Text(s: string)

  /** A stored value and the instant after which it expires, if it expires at all. */
  datatype Entry = Entry(data: Data, deadline: Option<int>)

  type Store = map<string, Entry>

  /** The errors INCR replies with. */
  datatype StoreError = NotAnInteger | IncrOverflow

  /** An entry stays readable up to and including its deadline and is gone once the clock passes it. */
  predicate Live(e: Entry, now: int) {
    e.deadline.None? || now <= e.deadline.value
  }

  /** The data `key` holds at time `now`; an expired key reads as absent. */
  function Lookup(store: Store, key: string, now: int): Option<Data> {
    if key in store && Live(store[key], now) then Some(store[key].data) else None
  }

  /** The integer INCR would start from: 0 for an absent key, none for a string. */
  function IntValue(store: Store, key: string, now: int): Option<int> {
    match Lookup(store, key, now)
    case None => Some(0)
    case Some(Num(n)) => Some(n)
    case Some(Text(_)) => None
  }

  /** INCR succeeds exactly on these keys. */
  predicate Incrementable(store: Store, key: string, now: int) {
    IntValue(store, key, now).Some? && IntValue(store, key, now).value < MaxInt64
  }

  /** Two stores hold the same thing under `key`. */
  predicate Agree(a: Store, b: Store, key: string) {
    (key in a <==> key in b) && (key in a ==> a[key] == b[key])
  }

  /** Two stores differ at most under `keys`. */
  ghost predicate SameExcept(a: Store, b: Store, keys: set<string>) {
    forall k :: k !in keys ==> Agree(a, b, k)
  }

  /** Decimal digits of a natural number, most significant first. */
  function Digits(n: nat): (s: string)
    ensures |s| > 0
    ensures forall i :: 0 <= i < |s| ==> '0' <= s[i] <= '9'
  {
    var d := ['0', '1', '2', '3', '4', '5', '6', '7', '8', '9'];
    if n < 10 then [d[n]] else Digits(n / 10) + [d[n % 10]]
  }

  /** How Redis renders an integer it is asked to GET. */
  function Decimal(n: int): (s: string)
    ensures |s| > 0
  {
    if n < 0 then "-" + Digits(-n) else Digits(n)
  }

  /**
   GET: the reply for `key` at time `now`, or none when the key is absent or
   expired. An integer is rendered in decimal, so it is never the empty reply.
   */
  function Get(store: Store, key: string, now: int): (r: Option<string>)
    ensures r.Some? <==> key in store && Live(store[key], now)
    ensures r.Some? && store[key].data.Text? ==> r.value == store[key].data.s
    ensures r.Some? && store[key].data.Num? ==> r.value != ""
  {
    match Lookup(store, key, now)
    case None => None
    case Some(Text(s)) => Some(s)
    case Some(Num(n)) => Some(Decimal(n))
  }

  /**
   INCR: adds one to the integer under `key` and replies with the new value.
   An absent or expired key counts from 0 and gets no deadline; a live key
   keeps its deadline. A string fails with NotAnInteger and the largest
   64-bit integer fails with IncrOverflow; a failure changes nothing.
   */
  function Incr(store: Store, key: string, now: int): (r: Result<(int, Store), StoreError>)
    ensures r.Success? <==> Incrementable(store, key, now)
    ensures r.Failure? && IntValue(store, key, now).None? ==> r.error == NotAnInteger
    ensures r.Failure? && IntValue(store, key, now).Some? ==> r.error == IncrOverflow
    ensures r.Success? ==>
      && r.value.0 == IntValue(store, key, now).value + 1
      && key in r.value.1
      && r.value.1[key].data == Num(r.value.0)
      && r.value.1[key].deadline == (if Lookup(store, key, now).Some? then store[key].deadline else None)
      && Live(r.value.1[key], now)
      && SameExcept(store, r.value.1, {key})
  {
    match Lookup(store, key, now)
    case None => Success((1, store[key := Entry(Num(1), None)]))
    case Some(Text(_)) => Failure(NotAnInteger)
    case Some(Num(n)) =>
      if n >= MaxInt64 then Failure(IncrOverflow)
      else Success((n + 1, store[key := Entry(Num(n + 1), store[key].deadline)]))
  }

  /**
   SETEX: stores `value` under `key`, replacing whatever was there, so that GET
   returns it through time `now + ttl` and nothing afterwards.
   */
  function SetEx(store: Store, key: string, ttl: int, value: string, now: int): (r: Store)
    requires ttl > 0
    ensures forall t :: Get(r, key, t) == if t <= now + ttl then Some(value) else None
    ensures SameExcept(store, r, {key})
  {
    store[key := Entry(Text(value), Some(now + ttl))]
  }
}
