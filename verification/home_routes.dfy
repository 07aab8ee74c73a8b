/**
 * The `/home` routes (src/routes/Home.rs), prefix `Home`. Home is the root
 * of the hierarchy, so its create never meets a foreign-key violation.
 */
module HomeRoutes {
  import opened Base
  import opened Keys
  import Redis
  import opened Entities
  import opened Db
  import opened Accessor

  /** create_home: insert under the fresh id, then cache the inserted row. */
  function CreateHome(s: State, newId: Id, name: string, stamp: Timestamp, insertFails: bool): (r: Step<Home>)
    requires IsNanoId(newId)
    ensures r.state.now == s.now
    ensures r.outcome.Ok? <==> !insertFails && newId !in s.store.homes
    ensures r.outcome.Ok? ==>
      && r.outcome.value == Home(newId, stamp, name)
      && IsNanoId(r.outcome.value.id)
      && r.state.store == s.store.(homes := s.store.homes[newId := r.outcome.value])
      && Cached(r.state, HomeKind, newId) == Some(HomeRow(r.outcome.value))
      && r.state.cache[Key(HomeKind, newId)].expiresAt == s.now + Redis.TTL
      && Redis.SameExcept(s.cache, r.state.cache, Key(HomeKind, newId))
    ensures !r.outcome.Ok? ==> r == Step(s, InternalError("Failed to create home"))
  {
    var home := Home(newId, stamp, name);
    match InsertHome(s.store, home, insertFails)
    case DbOk(st) => Step(Remember(s.(store := st), HomeKind, home.id, HomeRow(home)), Ok(home))
    case DbErr(_) => Step(s, InternalError("Failed to create home"))
  }

  /** get_homes: every home row, straight from the store. */
  function GetHomes(s: State, queryFails: bool): (r: Step<set<Home>>)
    ensures r.state == s
    ensures r.outcome.Ok? <==> !queryFails
    ensures r.outcome.Ok? ==> forall h :: h in r.outcome.value <==> h in s.store.homes.Values
    ensures !r.outcome.Ok? ==> r.outcome == InternalError("Failed to fetch homes")
  {
    if queryFails then Step(s, InternalError("Failed to fetch homes"))
    else Step(s, Ok(s.store.homes.Values))
  }

  /** get_home: a live entry that decodes answers alone; otherwise the store answers and is cached. */
  function GetHome(s: State, id: Id, findFails: bool): (r: Step<Home>)
    ensures r.state.store == s.store && r.state.now == s.now
    ensures Cached(s, HomeKind, id).Some? ==>
      r == Step(s, Ok(Cached(s, HomeKind, id).value.home))
    ensures Cached(s, HomeKind, id).None? ==>
      && (r.outcome.Ok? <==> !findFails && id in s.store.homes)
      && (r.outcome.Ok? ==>
            && r.outcome.value == s.store.homes[id]
            && Cached(r.state, HomeKind, id) == Some(HomeRow(s.store.homes[id]))
            && r.state.cache[Key(HomeKind, id)].expiresAt == s.now + Redis.TTL
            && Redis.SameExcept(s.cache, r.state.cache, Key(HomeKind, id)))
      && (r.outcome == BadRequest("Home not found") <==> !findFails && id !in s.store.homes)
      && (findFails ==> r.outcome == InternalError("Error fetching home"))
      && (!r.outcome.Ok? ==> r.state == s)
  {
    var hit := Cached(s, HomeKind, id);
    if hit.Some? then Step(s, Ok(hit.value.home))
    else if findFails then Step(s, InternalError("Error fetching home"))
    else if id !in s.store.homes then Step(s, BadRequest("Home not found"))
    else
      var h := s.store.homes[id];
      Step(Remember(s, HomeKind, id, HomeRow(h)), Ok(h))
  }

  /** get_home_application: the home's applications, or 400 when no such home exists. */
  function GetHomeApplications(s: State, homeId: Id, queryFails: bool): (r: Step<set<Application>>)
    ensures r.state == s
    ensures r.outcome.Ok? <==> !queryFails && homeId in s.store.homes
    ensures r.outcome.Ok? ==>
      forall a :: a in r.outcome.value <==> a in s.store.applications.Values && a.homeId == homeId
    ensures r.outcome == BadRequest("Home not found") <==> !queryFails && homeId !in s.store.homes
    ensures queryFails ==> r.outcome == InternalError("Query failed")
  {
    if queryFails then Step(s, InternalError("Query failed"))
    else if homeId !in s.store.homes then Step(s, BadRequest("Home not found"))
    else Step(s, Ok(ApplicationsOf(s.store, homeId)))
  }

  /** update_home: read the row from the store, change its name, write it back, re-cache it. */
  function UpdateHome(s: State, id: Id, name: string, findFails: bool, updateFails: bool): (r: Step<Home>)
    ensures r.state.now == s.now
    ensures r.outcome.Ok? <==> !findFails && id in s.store.homes && !updateFails
    ensures r.outcome.Ok? ==>
      && r.outcome.value.name == name
      && r.outcome.value.id == s.store.homes[id].id
      && r.outcome.value.createdAt == s.store.homes[id].createdAt
      && r.state.store == SaveHome(s.store, r.outcome.value)
      && Cached(r.state, HomeKind, id) == Some(HomeRow(r.outcome.value))
      && r.state.cache[Key(HomeKind, id)].expiresAt == s.now + Redis.TTL
      && Redis.SameExcept(s.cache, r.state.cache, Key(HomeKind, id))
    ensures r.outcome == BadRequest("Home not found") <==> !findFails && id !in s.store.homes
    ensures findFails ==> r.outcome == InternalError("Failed to fetch home")
    ensures !findFails && id in s.store.homes && updateFails ==> r.outcome == InternalError("Failed to update home")
    ensures !r.outcome.Ok? ==> r.state == s
  {
    if findFails then Step(s, InternalError("Failed to fetch home"))
    else if id !in s.store.homes then Step(s, BadRequest("Home not found"))
    else
      var updated := s.store.homes[id].(name := name);
      if updateFails then Step(s, InternalError("Failed to update home"))
      else Step(Remember(s.(store := SaveHome(s.store, updated)), HomeKind, id, HomeRow(updated)), Ok(updated))
  }

  /** delete_home: delete the row (cascading in the store), then DEL its cache key. */
  function DeleteHome(s: State, id: Id, deleteFails: bool): (r: Step<string>)
    ensures r.state.now == s.now
    ensures r.outcome.Ok? <==> !deleteFails
    ensures r.outcome.Ok? ==>
      && r.outcome.value == "Home deleted successfully"
      && r.state.store == DeleteHomeById(s.store, id)
      && id !in r.state.store.homes
      && Key(HomeKind, id) !in r.state.cache
      && Redis.SameExcept(s.cache, r.state.cache, Key(HomeKind, id))
    ensures !r.outcome.Ok? ==> r == Step(s, InternalError("Failed to delete home"))
  {
    if deleteFails then Step(s, InternalError("Failed to delete home"))
    else Step(Forget(s.(store := DeleteHomeById(s.store, id)), HomeKind, id), Ok("Home deleted successfully"))
  }

  // ------------------------------------------------------------ properties

  /** A cache hit is answered from the cache alone: neither the store's rows nor its health matter. */
  lemma GetHomeHitIgnoresStore(s: State, s2: State, id: Id, findFails: bool, findFails2: bool)
    requires s2.cache == s.cache && s2.now == s.now
    requires Cached(s, HomeKind, id).Some?
    ensures GetHome(s, id, findFails).outcome == GetHome(s2, id, findFails2).outcome
  {
  }

  /** Over a coherent cache, every home get_home returns is the store's row. */
  lemma {:induction false} GetHomeReturnsStoreRow(s: State, id: Id, findFails: bool)
    requires Coherent(s)
    requires GetHome(s, id, findFails).outcome.Ok?
    ensures id in s.store.homes && GetHome(s, id, findFails).outcome.value == s.store.homes[id]
  {
    if Cached(s, HomeKind, id).Some? {
      CoherentHitIsStoreRow(s, HomeKind, id);
    }
  }

  /** update_home decides from the store alone: the cache's content never changes its answer. */
  lemma UpdateHomeIgnoresCache(s: State, s2: State, id: Id, name: string, findFails: bool, updateFails: bool)
    requires s2.store == s.store && s2.now == s.now
    ensures UpdateHome(s, id, name, findFails, updateFails).outcome == UpdateHome(s2, id, name, findFails, updateFails).outcome
  {
  }

  lemma {:induction false} CreateHomeKeeps(s: State, newId: Id, name: string, stamp: Timestamp, insertFails: bool, deadline: int)
    requires IsNanoId(newId)
    requires Inv(s) && StaleUntil(s, deadline)
    ensures Inv(CreateHome(s, newId, name, stamp, insertFails).state)
    ensures StaleUntil(CreateHome(s, newId, name, stamp, insertFails).state, deadline)
  {
    var r := CreateHome(s, newId, name, stamp, insertFails);
    if r.outcome.Ok? {
      var h := r.outcome.value;
      var st' := s.store.(homes := s.store.homes[newId := h]);
      assert r.state == Remember(s.(store := st'), HomeKind, newId, HomeRow(h));
      InsertHomeKeepsWf(s.store, h, insertFails);
      Redis.WritesKeepExpiryBounded(s.cache, Key(HomeKind, newId), Encode(HomeRow(h)), s.now, s.now);
      assert RowsSameExcept(s.store, st', HomeKind, newId);
      forall k ensures StaleUntilKind(r.state, k, deadline) {
        RememberKeeps(s, st', HomeKind, newId, HomeRow(h), k, deadline);
      }
    }
  }

  lemma {:induction false} GetHomeKeeps(s: State, id: Id, findFails: bool, deadline: int)
    requires Inv(s) && StaleUntil(s, deadline)
    ensures Inv(GetHome(s, id, findFails).state)
    ensures StaleUntil(GetHome(s, id, findFails).state, deadline)
  {
    var r := GetHome(s, id, findFails);
    if Cached(s, HomeKind, id).None? && r.outcome.Ok? {
      forall k ensures StaleUntilKind(r.state, k, deadline) {
        RememberKeeps(s, s.store, HomeKind, id, HomeRow(s.store.homes[id]), k, deadline);
      }
    }
  }

  lemma {:induction false} UpdateHomeKeeps(s: State, id: Id, name: string, findFails: bool, updateFails: bool, deadline: int)
    requires Inv(s) && StaleUntil(s, deadline)
    ensures Inv(UpdateHome(s, id, name, findFails, updateFails).state)
    ensures StaleUntil(UpdateHome(s, id, name, findFails, updateFails).state, deadline)
  {
    var r := UpdateHome(s, id, name, findFails, updateFails);
    if r.outcome.Ok? {
      var h := r.outcome.value;
      assert h.id == id;
      var st' := r.state.store;
      forall k ensures StaleUntilKind(r.state, k, deadline) {
        RememberKeeps(s, st', HomeKind, id, HomeRow(h), k, deadline);
      }
    }
  }

  /**
   * delete_home keeps the home entries coherent, but the cascade removes
   * rows below the home whose cache entries stay: those may disagree with
   * the store until they expire, at most one TTL from now.
   */
  lemma {:induction false} DeleteHomeKeeps(s: State, id: Id, deleteFails: bool, deadline: int)
    requires Inv(s) && StaleUntil(s, deadline)
    ensures Inv(DeleteHome(s, id, deleteFails).state)
    ensures StaleUntilKind(DeleteHome(s, id, deleteFails).state, HomeKind, deadline)
    ensures StaleUntil(DeleteHome(s, id, deleteFails).state, Max(deadline, s.now + Redis.TTL))
  {
    var r := DeleteHome(s, id, deleteFails);
    var later := Max(deadline, s.now + Redis.TTL);
    if r.outcome.Ok? {
      var st' := DeleteHomeById(s.store, id);
      DeleteHomeCascades(s.store, id);
      ForgetKeeps(s, st', HomeKind, id, HomeKind, deadline);
      forall k ensures StaleUntilKind(r.state, k, later) {
        ExpiryBoundsStaleness(s, st', HomeKind, id, k, deadline);
      }
    } else {
      forall k ensures StaleUntilKind(r.state, k, later) {
        assert StaleUntilKind(s, k, deadline);
      }
    }
  }
}
