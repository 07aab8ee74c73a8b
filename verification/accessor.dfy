/**
 * The cache-aside pattern every entity route repeats: the state a handler
 * sees (store, cache, clock), the outcome it answers with, and the coherence
 * property relating cached copies to store rows, with the general facts each
 * route's proof is assembled from.
 */
module Accessor {
  import opened Base
  import opened Keys
  import Redis
  import opened Entities
  import opened Db

  /** Everything a handler reads or writes; `now` is the clock in seconds. */
  datatype State = State(store: Store, cache: Redis.Cache<Payload>, now: int)

  /** The HTTP answer: a JSON body, a 400 or a 500 with its message. */
  datatype Outcome<+T> = Ok(value: T) | BadRequest(message: string) | InternalError(message: string)

  /** A handler's result: the state after the request and the answer given. */
  datatype Step<+T> = Step(state: State, outcome: Outcome<T>)

  /** The row a GET of the kind's key yields, when the entry is live and decodes as that kind. */
  function Cached(s: State, kind: Kind, id: Id): (r: Option<Row>)
    ensures r.Some? ==> Redis.Live(s.cache, Key(kind, id), s.now)
    ensures r.Some? ==> KindOf(r.value) == kind && s.cache[Key(kind, id)].value == Encode(r.value)
  {
    match Redis.Get(s.cache, Key(kind, id), s.now)
    case None => None
    case Some(p) => Decode(kind, p)
  }

  /** SET `<Prefix>_<id>` to the row's JSON with a 30 s expiry. */
  function Remember(s: State, kind: Kind, id: Id, row: Row): (r: State)
    requires KindOf(row) == kind
    ensures r.store == s.store && r.now == s.now
    ensures Cached(r, kind, id) == Some(row)
    ensures Key(kind, id) in r.cache && r.cache[Key(kind, id)] == Redis.Entry(Encode(row), s.now + Redis.TTL)
    ensures Redis.SameExcept(s.cache, r.cache, Key(kind, id))
  {
    s.(cache := Redis.SetEx(s.cache, Key(kind, id), Encode(row), s.now))
  }

  /** DEL `<Prefix>_<id>`. */
  function Forget(s: State, kind: Kind, id: Id): (r: State)
    ensures r.store == s.store && r.now == s.now
    ensures Key(kind, id) !in r.cache
    ensures Cached(r, kind, id) == None
    ensures Redis.SameExcept(s.cache, r.cache, Key(kind, id))
  {
    s.(cache := Redis.Del(s.cache, Key(kind, id)))
  }

  /**
   * A GET of the kind's key is a hit with `row` exactly when the entry is
   * live and holds `row`'s JSON.
   */
  lemma {:induction false} CachedIsLiveEncoding(s: State, kind: Kind, id: Id, row: Row)
    requires KindOf(row) == kind
    ensures Cached(s, kind, id) == Some(row) <==>
      Redis.Live(s.cache, Key(kind, id), s.now) && s.cache[Key(kind, id)].value == Encode(row)
  {
    if Redis.Live(s.cache, Key(kind, id), s.now) && s.cache[Key(kind, id)].value == Encode(row) {
      assert Redis.Get(s.cache, Key(kind, id), s.now) == Some(Encode(row));
    }
  }

  /** The clock moves forward; nothing else changes. */
  function Advance(s: State, seconds: nat): (r: State)
    ensures r.store == s.store && r.cache == s.cache && r.now >= s.now
  {
    s.(now := s.now + seconds)
  }

  /** The database's own guarantees, and no cache entry outliving one TTL from now. */
  ghost predicate Inv(s: State)
  {
    Wf(s.store) && Redis.ExpiryBounded(s.cache, s.now)
  }

  /** Every live, decodable cache entry of `kind` equals the store's row under that id. */
  ghost predicate CoherentKind(s: State, kind: Kind)
  {
    forall id :: Cached(s, kind, id).Some? ==> Lookup(s.store, kind, id) == Cached(s, kind, id)
  }

  ghost predicate Coherent(s: State)
  {
    forall kind :: CoherentKind(s, kind)
  }

  /**
   * Bounded staleness: every live entry of `kind` that disagrees with the
   * store expires no later than `deadline`.
   */
  ghost predicate StaleUntilKind(s: State, kind: Kind, deadline: int)
  {
    forall id :: Cached(s, kind, id).Some? && Lookup(s.store, kind, id) != Cached(s, kind, id) ==>
      s.cache[Key(kind, id)].expiresAt <= deadline
  }

  ghost predicate StaleUntil(s: State, deadline: int)
  {
    forall kind :: StaleUntilKind(s, kind, deadline)
  }

  /** The store rows of `kind` are the same in both stores, except perhaps the one under `id`. */
  ghost predicate RowsSameExcept(st: Store, st': Store, kind: Kind, id: Id)
  {
    forall k, i :: (k != kind || i != id) ==> Lookup(st', k, i) == Lookup(st, k, i)
  }

  /** The store rows of every kind are the same in both stores. */
  ghost predicate RowsSame(st: Store, st': Store)
  {
    forall k, i :: Lookup(st', k, i) == Lookup(st, k, i)
  }

  /** Coherence is bounded staleness with the current time as deadline: a live entry expires after now. */
  lemma {:induction false} CoherentIsStaleUntilNow(s: State, kind: Kind)
    ensures CoherentKind(s, kind) <==> StaleUntilKind(s, kind, s.now)
  {
    if StaleUntilKind(s, kind, s.now) {
      forall id | Cached(s, kind, id).Some?
        ensures Lookup(s.store, kind, id) == Cached(s, kind, id)
      {
        assert s.now < s.cache[Key(kind, id)].expiresAt;
      }
    }
  }

  /** A write at one key leaves what every other (kind, id) reads unchanged. */
  lemma {:induction false} CachedAfterRemember(s: State, kind: Kind, id: Id, row: Row, k: Kind, i: Id)
    requires KindOf(row) == kind
    requires k != kind || i != id
    ensures Key(k, i) in Remember(s, kind, id, row).cache <==> Key(k, i) in s.cache
    ensures Key(k, i) in s.cache ==> Remember(s, kind, id, row).cache[Key(k, i)] == s.cache[Key(k, i)]
    ensures Cached(Remember(s, kind, id, row), k, i) == Cached(s, k, i)
  {
    KeyInjective(k, i, kind, id);
  }

  /** A delete at one key leaves what every other (kind, id) reads unchanged. */
  lemma {:induction false} CachedAfterForget(s: State, kind: Kind, id: Id, k: Kind, i: Id)
    requires k != kind || i != id
    ensures Key(k, i) in Forget(s, kind, id).cache <==> Key(k, i) in s.cache
    ensures Key(k, i) in s.cache ==> Forget(s, kind, id).cache[Key(k, i)] == s.cache[Key(k, i)]
    ensures Cached(Forget(s, kind, id), k, i) == Cached(s, k, i)
  {
    KeyInjective(k, i, kind, id);
  }

  /**
   * Writing a row to the store and then caching exactly that row keeps the
   * staleness bound of every kind.
   */
  lemma {:induction false} RememberKeeps(s: State, st': Store, kind: Kind, id: Id, row: Row, k: Kind, deadline: int)
    requires KindOf(row) == kind
    requires Lookup(st', kind, id) == Some(row)
    requires RowsSameExcept(s.store, st', kind, id)
    requires StaleUntilKind(s, k, deadline)
    ensures StaleUntilKind(Remember(s.(store := st'), kind, id, row), k, deadline)
  {
    var s1 := s.(store := st');
    var s' := Remember(s1, kind, id, row);
    forall i | Cached(s', k, i).Some? && Lookup(st', k, i) != Cached(s', k, i)
      ensures s'.cache[Key(k, i)].expiresAt <= deadline
    {
      if k != kind || i != id {
        CachedAfterRemember(s1, kind, id, row, k, i);
        assert Cached(s1, k, i) == Cached(s, k, i);
      }
    }
  }

  /**
   * Deleting a cache key keeps the staleness bound of every kind whose rows
   * the store kept, apart from the deleted key's own row.
   */
  lemma {:induction false} ForgetKeeps(s: State, st': Store, kind: Kind, id: Id, k: Kind, deadline: int)
    requires forall i :: (k != kind || i != id) ==> Lookup(st', k, i) == Lookup(s.store, k, i)
    requires StaleUntilKind(s, k, deadline)
    ensures StaleUntilKind(Forget(s.(store := st'), kind, id), k, deadline)
  {
    var s1 := s.(store := st');
    var s' := Forget(s1, kind, id);
    forall i | Cached(s', k, i).Some? && Lookup(st', k, i) != Cached(s', k, i)
      ensures s'.cache[Key(k, i)].expiresAt <= deadline
    {
      if k != kind || i != id {
        CachedAfterForget(s1, kind, id, k, i);
        assert Cached(s1, k, i) == Cached(s, k, i);
      }
    }
  }

  /** A step that changes neither the cache nor any cached table keeps every bound. */
  lemma {:induction false} UntouchedKeeps(s: State, st': Store, deadline: int)
    requires RowsSame(s.store, st')
    requires StaleUntil(s, deadline)
    ensures StaleUntil(s.(store := st'), deadline)
  {
    var s' := s.(store := st');
    forall k ensures StaleUntilKind(s', k, deadline) {
      assert StaleUntilKind(s, k, deadline);
      forall i | Cached(s', k, i).Some? && Lookup(st', k, i) != Cached(s', k, i)
        ensures s'.cache[Key(k, i)].expiresAt <= deadline
      {
        assert Cached(s', k, i) == Cached(s, k, i);
      }
    }
  }

  /**
   * Whatever the store does, a step that only deletes cache keys leaves no
   * disagreeing entry live past one TTL from now: every entry was written
   * at most TTL seconds ago.
   */
  lemma {:induction false} ExpiryBoundsStaleness(s: State, st': Store, kind: Kind, id: Id, k: Kind, deadline: int)
    requires Redis.ExpiryBounded(s.cache, s.now)
    requires StaleUntilKind(s, k, deadline)
    ensures StaleUntilKind(Forget(s.(store := st'), kind, id), k, Max(deadline, s.now + Redis.TTL))
  {
    var s' := Forget(s.(store := st'), kind, id);
    forall i | Cached(s', k, i).Some? && Lookup(st', k, i) != Cached(s', k, i)
      ensures s'.cache[Key(k, i)].expiresAt <= Max(deadline, s.now + Redis.TTL)
    {
      assert Key(k, i) in s.cache;
    }
  }

  /**
   * Time passing keeps every staleness bound, and once the clock reaches
   * the deadline the cache is coherent again.
   */
  lemma {:induction false} AdvanceKeeps(s: State, seconds: nat, deadline: int)
    requires Inv(s)
    requires StaleUntil(s, deadline)
    ensures Inv(Advance(s, seconds))
    ensures StaleUntil(Advance(s, seconds), deadline)
    ensures Advance(s, seconds).now >= deadline ==> Coherent(Advance(s, seconds))
  {
    var s' := Advance(s, seconds);
    forall k ensures StaleUntilKind(s', k, deadline) {
      assert StaleUntilKind(s, k, deadline);
      forall i | Cached(s', k, i).Some? && Lookup(s'.store, k, i) != Cached(s', k, i)
        ensures s'.cache[Key(k, i)].expiresAt <= deadline
      {
        assert Cached(s, k, i) == Cached(s', k, i);
      }
    }
    if s'.now >= deadline {
      forall k ensures CoherentKind(s', k) {
        assert StaleUntilKind(s', k, deadline);
        assert StaleUntilKind(s', k, s'.now);
        CoherentIsStaleUntilNow(s', k);
      }
    }
  }

  /**
   * The invariant alone bounds staleness: every entry was written at most one
   * TTL ago, so every stale one expires by now + TTL.
   */
  lemma {:induction false} InvBoundsStaleness(s: State)
    requires Inv(s)
    ensures StaleUntil(s, s.now + Redis.TTL)
  {
    var d := s.now + Redis.TTL;
    forall k ensures StaleUntilKind(s, k, d) {
      forall i | Cached(s, k, i).Some? && Lookup(s.store, k, i) != Cached(s, k, i)
        ensures s.cache[Key(k, i)].expiresAt <= d
      {
        assert Key(k, i) in s.cache;
      }
    }
  }

  /** A coherent cache answers a hit with exactly the store's row. */
  lemma {:induction false} CoherentHitIsStoreRow(s: State, kind: Kind, id: Id)
    requires Coherent(s)
    requires Cached(s, kind, id).Some?
    ensures Lookup(s.store, kind, id) == Cached(s, kind, id)
  {
    assert CoherentKind(s, kind);
  }
}
