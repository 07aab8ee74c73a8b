/**
 * The part of Redis the routes use: GET, SET with `EX 30`
 * (src/utils.rs `get_redis_set_options`) and DEL, over an integer clock in
 * seconds. An entry written at time t is readable exactly while now < t + 30;
 * an expired entry reads as absent whether or not Redis has evicted it yet.
 */
module Redis {
  import opened Base

  /** The expiry every cache write carries, in seconds (`SetExpiry::EX(30)`). */
  const TTL: int := 30

  datatype Entry<V> = Entry(value: V, expiresAt: int)

  type Cache<V> = map<string, Entry<V>>

  /** The key holds an entry that has not yet expired at time `now`. */
  predicate Live<V>(c: Cache<V>, key: string, now: int)
  {
    key in c && now < c[key].expiresAt
  }

  /** GET: the stored value while the entry is live, nothing otherwise. */
  function Get<V>(c: Cache<V>, key: string, now: int): (r: Option<V>)
    ensures r.Some? <==> Live(c, key, now)
    ensures r.Some? ==> r.value == c[key].value
  {
    if Live(c, key, now) then Some(c[key].value) else None
  }

  /** The two caches hold the same entries at every key except `key`. */
  ghost predicate SameExcept<V>(c: Cache<V>, c': Cache<V>, key: string)
  {
    && (forall k :: k != key ==> (k in c' <==> k in c))
    && (forall k :: k != key && k in c ==> c'[k] == c[k])
  }

  /** SET key value EX 30 at time `now`. */
  function SetEx<V>(c: Cache<V>, key: string, v: V, now: int): (r: Cache<V>)
    ensures forall t :: now <= t < now + TTL ==> Get(r, key, t) == Some(v)
    ensures forall t :: t >= now + TTL ==> Get(r, key, t) == None
    ensures SameExcept(c, r, key)
  {
    c[key := Entry(v, now + TTL)]
  }

  /** DEL key: removes the entry, live or not, and succeeds when there is none. */
  function Del<V>(c: Cache<V>, key: string): (r: Cache<V>)
    ensures key !in r
    ensures forall t :: Get(r, key, t) == None
    ensures SameExcept(c, r, key)
  {
    c - {key}
  }

  /** No entry outlives the expiry a write at time `now` would give it. */
  predicate ExpiryBounded<V>(c: Cache<V>, now: int)
  {
    forall k :: k in c ==> c[k].expiresAt <= now + TTL
  }

  /** Writes keep every entry within TTL of the current time, and so does time passing. */
  lemma {:induction false} WritesKeepExpiryBounded<V>(c: Cache<V>, key: string, v: V, now: int, later: int)
    requires ExpiryBounded(c, now)
    requires now <= later
    ensures ExpiryBounded(SetEx(c, key, v, now), now)
    ensures ExpiryBounded(Del(c, key), now)
    ensures ExpiryBounded(c, later)
  {
  }
}
