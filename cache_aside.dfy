/**
 * The read path every cached GET handler follows: look the key up in the
 * shared cache; on a hit send the cached value with status 200 and touch no
 * table; on a miss run one query, answer 500 on a database error, 404 on an
 * empty result where the route treats that as "not found", and otherwise
 * store the (possibly reshaped) result under the key and send it with 200.
 */
module CacheAside {
  import opened Js
  import opened Http
  import opened Cache
  import opened Reshape

  /** TIME_CACHE = 60 * 1000 milliseconds, shared by every cached route except /notifications/news. */
  const TimeCache: int := 60 * 1000

  /** What is sent and stored for the rows of a successful query. */
  datatype Shape =
    | Raw                      // the rows themselves
    | First                    // only rows[0]
    | Nested(withTipo: bool)   // one reshaped product object per row

  /** How a route treats its query result: is an empty result a 404, and what is sent. */
  datatype Plan = Plan(emptyIs404: bool, shape: Shape)

  /** The outcome of one request: the response, the queries it issued in order, and what it stored under its key. */
  datatype Served = Served(resp: Response, issued: seq<Query>, stored: Option<Value>)

  function Present(rows: seq<Value>, shape: Shape): (v: Value)
    ensures shape.Raw? ==> v == Arr(rows)
    ensures shape.Nested? ==> v.Arr? && |v.items| == |rows|
    ensures shape.Nested? ==> forall i :: 0 <= i < |rows| ==> v.items[i] == ShapeProduct(rows[i], shape.withTipo)
    ensures shape.First? ==> v == (if |rows| > 0 then rows[0] else Undefined)
  {
    match shape
    case Raw => Arr(rows)
    case First => if |rows| > 0 then rows[0] else Undefined
    case Nested(withTipo) => Arr(ShapeAll(rows, withTipo))
  }

  /** One request through the cache-aside read path, given what the cache holds under its key. */
  function ReadThrough(cached: Value, q: Query, db: Query -> DbResult, plan: Plan): (s: Served)
    // a hit answers from the cache and issues no query
    ensures Truthy(cached) ==> s == Served(Response(200, Json(cached)), [], None)
    // a miss issues exactly the route's query
    ensures !Truthy(cached) ==> s.issued == [q]
    ensures !Truthy(cached) && db(q).DbError? ==> s.resp == Status(500)
    ensures !Truthy(cached) && db(q).Rows? && |db(q).rows| == 0 && plan.emptyIs404 ==> s.resp == Status(404)
    // something is stored exactly when a miss succeeds, and what is stored is what is sent
    ensures s.stored.Some? <==> !Truthy(cached) && s.resp.status == 200
    ensures s.stored.Some? ==> s.resp == Response(200, Json(s.stored.value))
    ensures s.stored.Some? ==> db(q).Rows? && s.stored.value == Present(db(q).rows, plan.shape)
    ensures !Truthy(cached) && db(q).Rows? && (|db(q).rows| > 0 || !plan.emptyIs404) ==> s.stored.Some?
  {
    if Truthy(cached) then Served(Response(200, Json(cached)), [], None)
    else match db(q)
      case DbError => Served(Status(500), [q], None)
      case Rows(rows) =>
        if |rows| == 0 && plan.emptyIs404 then Served(Status(404), [q], None)
        else Served(Response(200, Json(Present(rows, plan.shape))), [q], Some(Present(rows, plan.shape)))
  }

  /** The new cache state after a request served `stored` under `key` at the current time. */
  twostate predicate Applied(cache: MemCache, key: string, stored: Option<Value>, ttl: int)
    reads cache
  {
    cache.now == old(cache.now) && cache.entries == Stored(old(cache.entries), key, stored, old(cache.now), ttl)
  }

  /** A handler's response, queries and new cache state are those of `s`. */
  twostate predicate Did(cache: MemCache, key: string, s: Served, ttl: int, resp: Response, issued: seq<Query>)
    reads cache
  {
    resp == s.resp && issued == s.issued && Applied(cache, key, s.stored, ttl)
  }

  /** The cache-aside read path on the shared cache. */
  method Serve(cache: MemCache, key: string, q: Query, db: Query -> DbResult, plan: Plan, ttl: int)
    returns (resp: Response, issued: seq<Query>)
    modifies cache
    ensures Did(cache, key, ReadThrough(old(cache.Get(key)), q, db, plan), ttl, resp, issued)
  {
    var cachedData := cache.Get(key);
    if Truthy(cachedData) {
      return Response(200, Json(cachedData)), [];
    }
    issued := [q];
    match db(q)
    case DbError =>
      resp := Status(500);
    case Rows(rows) =>
      if |rows| == 0 && plan.emptyIs404 {
        resp := Status(404);
      } else {
        var ans := Present(rows, plan.shape);
        if plan.shape.Nested? {
          var shaped := ShapeRows(rows, plan.shape.withTipo);
          assert shaped == ShapeAll(rows, plan.shape.withTipo);
          ans := Arr(shaped);
        }
        cache.Put(key, ans, ttl);
        resp := Response(200, Json(ans));
      }
  }

  /**
   * A successful miss fills the cache so that, for the next `ttl` milliseconds,
   * the same request is answered with the same response and issues no query,
   * whatever the database answers by then; once the entry expires the request
   * goes back to the database. Arrays are truthy even when empty, so this holds
   * for every shape but First, whose row is only cached usefully when truthy.
   */
  lemma RepeatHits(entries: map<string, Entry>, now: int, key: string, q: Query, db: Query -> DbResult,
                   db2: Query -> DbResult, plan: Plan, ttl: nat, elapsed: nat)
    ensures var s1 := ReadThrough(Lookup(entries, now, key), q, db, plan);
            var later := Lookup(Stored(entries, key, s1.stored, now, ttl), now + elapsed, key);
            var s2 := ReadThrough(later, q, db2, plan);
            s1.stored.Some? && Truthy(s1.stored.value) && elapsed <= ttl ==> s2.issued == [] && s2.resp == s1.resp
    ensures var s1 := ReadThrough(Lookup(entries, now, key), q, db, plan);
            s1.stored.Some? && !plan.shape.First? ==> Truthy(s1.stored.value)
    ensures var s1 := ReadThrough(Lookup(entries, now, key), q, db, plan);
            var later := Lookup(Stored(entries, key, s1.stored, now, ttl), now + elapsed, key);
            s1.stored.Some? && elapsed > ttl ==> ReadThrough(later, q, db2, plan).issued == [q]
  {
    var s1 := ReadThrough(Lookup(entries, now, key), q, db, plan);
    if s1.stored.Some? {
      PutThenGet(entries, now, key, s1.stored.value, ttl, elapsed, key + "'");
    }
  }

  /** Requests that failed or found nothing leave no trace in the cache: the next identical request queries again. */
  lemma FailuresRetry(entries: map<string, Entry>, now: int, key: string, q: Query, db: Query -> DbResult,
                      db2: Query -> DbResult, plan: Plan, ttl: int)
    requires !Truthy(Lookup(entries, now, key))
    ensures var s1 := ReadThrough(Lookup(entries, now, key), q, db, plan);
            s1.resp.status != 200 ==>
              Stored(entries, key, s1.stored, now, ttl) == entries
              && ReadThrough(Lookup(Stored(entries, key, s1.stored, now, ttl), now, key), q, db2, plan).issued == [q]
  {
  }
}
