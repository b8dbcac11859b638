/**
 * routes/medicine/search.js: the lowest price of a product (optionally within
 * a region), product suggestions for a keyword, and the four-stage
 * suggestion chain `suggestions2`. The radius search is module Nearby.
 */
module Search {
  import opened Js
  import opened Http
  import opened Cache
  import opened Pagination
  import opened CacheAside

  // ---------------------------------------------------------------- precioMinimo

  /** `parseInt(req.params.id || -1)` */
  function ProductId(param: string): Option<int> {
    ParseInt(if param == "" then "-1" else param)
  }

  /** `req.baseUrl + '/producto/' + id + '/precioMinimo?ubigeo=' + ubigeo` */
  function PriceKey(baseUrl: string, id: Option<int>, ubigeo: string): string {
    baseUrl + "/producto/" + NumberText(id) + "/precioMinimo?ubigeo=" + ubigeo
  }

  /** The minimum price query: `[id]`, then `[len, ubigeo]` for a region prefix. */
  function PriceQuery(id: Option<int>, ubigeo: string): (q: Query)
    ensures ubigeo == "" ==> q.params == [NumberOf(id)]
    ensures ubigeo != "" ==> q.params == [NumberOf(id), Num(Length(ubigeo) as real), Str(ubigeo)]
  {
    if ubigeo == "" then Query("min precio by idP", [NumberOf(id)])
    else Query("min precio by idP, ubigeo prefix",
               [NumberOf(id), Num(Length(ubigeo) as real), Str(ubigeo)])
  }

  /** No row is a 404; otherwise the first row is sent and cached. */
  const PricePlan: Plan := Plan(true, First)

  /**
   * GET /search/producto/:id/precioMinimo on a given cache content. The cache
   * is consulted before the region code is checked, so only a miss with a
   * code of odd UTF-16 length is refused with 400.
   */
  function Price(cached: Value, id: Option<int>, ubigeo: string, db: Query -> DbResult): (s: Served)
    ensures Truthy(cached) ==> s == Served(Response(200, Json(cached)), [], None)
    ensures !Truthy(cached) && Length(ubigeo) % 2 == 1 ==> s == Served(Status(400), [], None)
    ensures !Truthy(cached) && Length(ubigeo) % 2 == 0 ==> s == ReadThrough(cached, PriceQuery(id, ubigeo), db, PricePlan)
    ensures s.stored.Some? ==>
              (Length(ubigeo) % 2 == 0 && db(PriceQuery(id, ubigeo)).Rows?
               && |db(PriceQuery(id, ubigeo)).rows| > 0 && s.stored.value == db(PriceQuery(id, ubigeo)).rows[0])
  {
    if Truthy(cached) then Served(Response(200, Json(cached)), [], None)
    else if Length(ubigeo) % 2 == 1 then Served(Status(400), [], None)
    else ReadThrough(cached, PriceQuery(id, ubigeo), db, PricePlan)
  }

  method PrecioMinimo(cache: MemCache, baseUrl: string, idParam: string, ubigeoParam: Option<string>, db: Query -> DbResult)
    returns (resp: Response, issued: seq<Query>)
    modifies cache
    ensures var id, ubigeo := ProductId(idParam), OrText(ubigeoParam, "");
            var key := PriceKey(baseUrl, id, ubigeo);
            Did(cache, key, Price(old(cache.Get(key)), id, ubigeo, db), TimeCache, resp, issued)
  {
    var id := ProductId(idParam);
    var ubigeo := OrText(ubigeoParam, "");
    var key := PriceKey(baseUrl, id, ubigeo);
    var cachedData := cache.Get(key);
    if Truthy(cachedData) {
      return Response(200, Json(cachedData)), [];
    }
    var params := [NumberOf(id)];
    if Length(ubigeo) % 2 == 1 {
      return Status(400), [];
    }
    var stmt := "min precio by idP";
    if ubigeo != "" {
      stmt := "min precio by idP, ubigeo prefix";
      params := params + [Num(Length(ubigeo) as real)];
      params := params + [Str(ubigeo)];
    }
    assert Query(stmt, params) == PriceQuery(id, ubigeo);
    resp, issued := Serve(cache, key, Query(stmt, params), db, PricePlan, TimeCache);
  }

  // ---------------------------------------------------------------- suggestions

  /** Products whose name contains the keyword followed by anything: `'%' + keyword + '%' + '%'`. */
  function SuggestQuery(keyword: string, w: Window): Query {
    Query("PRODUCTO by nombre, limit", [Str("%" + keyword + "%" + "%")] + WindowParams(w))
  }

  /** GET /search/suggestions?keyword&start&size: not cached. */
  function Suggestions(keyword: Option<string>, start: Option<int>, size: Option<int>, db: Query -> DbResult): (s: Served)
    ensures keyword.None? <==> s.resp == Status(400) && s.issued == []
    ensures keyword.Some? ==> s.issued == [SuggestQuery(keyword.value, Clamp(start, size))]
    ensures keyword.Some? ==> var answer := db(SuggestQuery(keyword.value, Clamp(start, size)));
              s.resp == (if answer.DbError? then Status(500) else Response(200, Json(Arr(answer.rows))))
    ensures s.stored.None?
  {
    if keyword.None? then Served(Status(400), [], None)
    else
      var q := SuggestQuery(keyword.value, Clamp(start, size));
      match db(q)
      case DbError => Served(Status(500), [q], None)
      case Rows(data) => Served(Response(200, Json(Arr(data))), [q], None)
  }

  // ---------------------------------------------------------------- suggestions2

  /**
   * The page size of suggestions2: `parseInt(size)` without a fallback (a NaN
   * is never `== undefined`), then clamped to [1, 100]; NaN stays NaN and 0
   * becomes 1.
   */
  function Size2(parsed: Option<int>): (size: Option<int>)
    ensures parsed.None? <==> size.None?
    ensures size.Some? ==> 1 <= size.value <= 100
    ensures parsed.Some? && parsed.value <= 1 ==> size == Some(1)
    ensures parsed.Some? && 1 <= parsed.value <= 100 ==> size == parsed
    ensures parsed.Some? && parsed.value >= 100 ==> size == Some(100)
  {
    match parsed
    case None => None
    case Some(n) => Some(if n < 1 then 1 else if n > 100 then 100 else n)
  }

  /** `req.baseUrl + '/suggestions2?keyword=' + keyword + '&start=' + start + '&size=' + size`, keyword ending in '%'. */
  function Suggest2Key(baseUrl: string, keyword: string, start: nat, size: Option<int>): string {
    baseUrl + "/suggestions2?keyword=" + keyword + "%" + "&start=" + NatText(start) + "&size=" + NumberText(size)
  }

  /** `ids.push(rows[i][name])` over all rows. */
  function Column(rows: seq<Value>, name: string): (ids: seq<Value>)
    ensures |ids| == |rows|
    ensures forall i :: 0 <= i < |rows| ==> ids[i] == Field(rows[i], name)
  {
    seq(|rows|, i requires 0 <= i < |rows| => Field(rows[i], name))
  }

  method CollectColumn(rows: seq<Value>, name: string) returns (ids: seq<Value>)
    ensures ids == Column(rows, name)
  {
    ids := [];
    var i := 0;
    while i < |rows|
      invariant 0 <= i <= |rows|
      invariant ids == Column(rows[..i], name)
    {
      ids := ids + [Field(rows[i], name)];
      i := i + 1;
    }
    assert rows[..|rows|] == rows;
  }

  /** Products whose name matches the pattern, which already ends in '%': a prefix search. */
  function NamedQuery(pattern: string): Query {
    Query("PRODUCTO id by nombre", [Str(pattern)])
  }

  /** The suggestion groups of those products (their ids are written into the statement). */
  function GroupsQuery(ids: seq<Value>): Query {
    Query("PROD_SUG ids by idp", ids)
  }

  /** The products of those groups. */
  function MembersQuery(groups: seq<Value>): Query {
    Query("PROD_SUG idp by ids", groups)
  }

  /** A page of those products. */
  function ProductsQuery(ids: seq<Value>, start: nat, size: Option<int>): Query {
    Query("PRODUCTO by id list, limit", ids + [Num(start as real), NumberOf(size)])
  }

  /** An early stage found nothing: `[]` is stored and sent. */
  function NoSuggestions(issued: seq<Query>): Served {
    Served(Response(200, Json(Arr([]))), issued, Some(Arr([])))
  }

  /** The four queries of suggestions2 after a miss; each stage's ids come from the previous stage's rows. */
  function Chain(pattern: string, start: nat, size: Option<int>, db: Query -> DbResult): (s: Served)
    ensures 1 <= |s.issued| <= 4 && s.issued[0] == NamedQuery(pattern)
    // a failing stage is a 500 that stores nothing
    ensures db(s.issued[|s.issued| - 1]).DbError? <==> s.resp == Status(500)
    ensures db(s.issued[|s.issued| - 1]).DbError? <==> s.stored.None?
    // an early stage without rows stores and sends []
    ensures |s.issued| < 4 && db(s.issued[|s.issued| - 1]) == Rows([]) ==> s == NoSuggestions(s.issued)
    // otherwise the last stage's rows are stored and sent
    ensures |s.issued| == 4 && db(s.issued[3]).Rows? ==>
              s.stored == Some(Arr(db(s.issued[3]).rows)) && s.resp == Response(200, Json(s.stored.value))
    ensures s.stored.Some? ==> s.resp == Response(200, Json(s.stored.value)) && s.stored.value.Arr?
  {
    var q0 := NamedQuery(pattern);
    match db(q0)
    case DbError => Served(Status(500), [q0], None)
    case Rows(rows0) =>
      if |rows0| == 0 then NoSuggestions([q0])
      else
        var q1 := GroupsQuery(Column(rows0, "id"));
        match db(q1)
        case DbError => Served(Status(500), [q0, q1], None)
        case Rows(rows1) =>
          if |rows1| == 0 then NoSuggestions([q0, q1])
          else
            var q2 := MembersQuery(Column(rows1, "ids"));
            match db(q2)
            case DbError => Served(Status(500), [q0, q1, q2], None)
            case Rows(rows2) =>
              if |rows2| == 0 then NoSuggestions([q0, q1, q2])
              else
                var q3 := ProductsQuery(Column(rows2, "idp"), start, size);
                match db(q3)
                case DbError => Served(Status(500), [q0, q1, q2, q3], None)
                case Rows(rows3) => Served(Response(200, Json(Arr(rows3))), [q0, q1, q2, q3], Some(Arr(rows3)))
  }

  /** GET /search/suggestions2 on a given cache content. */
  function Suggest2(cached: Value, keyword: Option<string>, start: Option<int>, size: Option<int>, db: Query -> DbResult): (s: Served)
    ensures keyword.None? ==> s == Served(Status(400), [], None)
    // a keyword shorter than 3 is answered with [] before the cache is consulted, and nothing is stored
    ensures keyword.Some? && Length(keyword.value) < 3 ==> s == Served(Response(200, Json(Arr([]))), [], None)
    ensures keyword.Some? && Length(keyword.value) >= 3 && Truthy(cached) ==> s == Served(Response(200, Json(cached)), [], None)
    ensures keyword.Some? && Length(keyword.value) >= 3 && !Truthy(cached) ==>
              s == Chain(keyword.value + "%", Start(start), Size2(size), db)
  {
    if keyword.None? then Served(Status(400), [], None)
    else if Length(keyword.value) < 3 then Served(Response(200, Json(Arr([]))), [], None)
    else if Truthy(cached) then Served(Response(200, Json(cached)), [], None)
    else Chain(keyword.value + "%", Start(start), Size2(size), db)
  }

  /** The four stages after a miss; every stage that ends the request stores its answer under `key`. */
  method RunChain(cache: MemCache, key: string, kw: string, from: nat, count: Option<int>, db: Query -> DbResult)
    returns (resp: Response, issued: seq<Query>)
    modifies cache
    ensures Did(cache, key, Chain(kw, from, count, db), TimeCache, resp, issued)
  {
    var q0 := NamedQuery(kw);
    issued := [q0];
    if db(q0).DbError? {
      return Status(500), issued;
    }
    var rows0 := db(q0).rows;
    if |rows0| == 0 {
      cache.Put(key, Arr([]), TimeCache);
      return Response(200, Json(Arr([]))), issued;
    }
    var ids := CollectColumn(rows0, "id");
    var q1 := GroupsQuery(ids);
    issued := issued + [q1];
    if db(q1).DbError? {
      return Status(500), issued;
    }
    var rows1 := db(q1).rows;
    if |rows1| == 0 {
      cache.Put(key, Arr([]), TimeCache);
      return Response(200, Json(Arr([]))), issued;
    }
    ids := CollectColumn(rows1, "ids");
    var q2 := MembersQuery(ids);
    issued := issued + [q2];
    if db(q2).DbError? {
      return Status(500), issued;
    }
    var rows2 := db(q2).rows;
    if |rows2| == 0 {
      cache.Put(key, Arr([]), TimeCache);
      return Response(200, Json(Arr([]))), issued;
    }
    ids := CollectColumn(rows2, "idp");
    var q3 := ProductsQuery(ids, from, count);
    issued := issued + [q3];
    if db(q3).DbError? {
      return Status(500), issued;
    }
    var rows3 := db(q3).rows;
    cache.Put(key, Arr(rows3), TimeCache);
    resp := Response(200, Json(Arr(rows3)));
  }

  method Suggestions2(cache: MemCache, baseUrl: string, keyword: Option<string>, start: Option<int>, size: Option<int>,
                      db: Query -> DbResult)
    returns (resp: Response, issued: seq<Query>)
    modifies cache
    ensures keyword.None? || Length(keyword.value) < 3 ==>
              resp == Suggest2(Null, keyword, start, size, db).resp && issued == []
              && cache.entries == old(cache.entries) && cache.now == old(cache.now)
    ensures keyword.Some? && Length(keyword.value) >= 3 ==>
              var key := Suggest2Key(baseUrl, keyword.value, Start(start), Size2(size));
              Did(cache, key, Suggest2(old(cache.Get(key)), keyword, start, size, db), TimeCache, resp, issued)
  {
    if keyword.None? {
      return Status(400), [];
    } else if Length(keyword.value) < 3 {
      return Response(200, Json(Arr([]))), [];
    }
    var kw := keyword.value + "%";
    var from, count := Start(start), Size2(size);
    var key := Suggest2Key(baseUrl, keyword.value, from, count);
    var cachedData := cache.Get(key);
    if Truthy(cachedData) {
      return Response(200, Json(cachedData)), [];
    }
    resp, issued := RunChain(cache, key, kw, from, count, db);
  }

  /**
   * Whatever suggestions2 stores is an array, so truthy even when empty: for
   * the next minute the same request is answered with the same response and
   * issues no query, whatever the tables hold by then.
   */
  lemma Suggestions2Remembered(entries: map<string, Entry>, now: int, key: string, keyword: string,
                               start: Option<int>, size: Option<int>, db: Query -> DbResult, db2: Query -> DbResult,
                               elapsed: nat)
    requires Length(keyword) >= 3
    ensures var s1 := Suggest2(Lookup(entries, now, key), Some(keyword), start, size, db);
            var later := Lookup(Stored(entries, key, s1.stored, now, TimeCache), now + elapsed, key);
            s1.stored.Some? && elapsed <= TimeCache ==>
              Suggest2(later, Some(keyword), start, size, db2) == Served(s1.resp, [], None)
  {
    var s1 := Suggest2(Lookup(entries, now, key), Some(keyword), start, size, db);
    if s1.stored.Some? {
      PutThenGet(entries, now, key, s1.stored.value, TimeCache, elapsed, key + "'");
    }
  }
}
