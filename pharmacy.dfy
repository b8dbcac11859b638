/**
 * routes/medicine/pharmacy.js: the active pharmacies, optionally within an
 * ubigeo region prefix, one pharmacy, its products, one of its products and
 * its staff, all read through the shared cache.
 */
module Pharmacy {
  import opened Js
  import opened Http
  import opened Cache
  import opened Pagination
  import opened Keys
  import opened CacheAside

  /** `req.baseUrl + '?ubigeo=' + ubigeo + '&start=' + start + '&size=' + size` */
  function ListKey(baseUrl: string, ubigeo: string, w: Window): string {
    baseUrl + "?ubigeo=" + ubigeo + "&" + WindowText(w)
  }

  /**
   * The active pharmacies of a page, restricted to those whose ubigeo starts
   * with the given region code when one is given: `[len, ubigeo, start, size]`
   * is bound to `substr(ubigeo, 1, ?) = ?` and `limit ?, ?`.
   */
  function ListQuery(ubigeo: string, w: Window): (q: Query)
    ensures ubigeo == "" ==> q.params == WindowParams(w)
    ensures ubigeo != "" ==> q.params == [Num(Length(ubigeo) as real), Str(ubigeo)] + WindowParams(w)
  {
    if ubigeo == "" then Query("FARMACIA active, limit", WindowParams(w))
    else Query("FARMACIA active by ubigeo prefix, limit",
               [Num(Length(ubigeo) as real), Str(ubigeo)] + WindowParams(w))
  }

  function ItemQuery(id: string): Query {
    Query("FARMACIA by id", [Str(id)])
  }

  function ProductsQuery(idF: string, w: Window): Query {
    Query("PRODUCTO*PROD_FARM by idF, limit", [Str(idF)] + WindowParams(w))
  }

  function ProductOfQuery(idF: string, idP: string): Query {
    Query("PRODUCTO*PROD_FARM by idF, idP", [Str(idF), Str(idP)])
  }

  function PersonalQuery(idF: string): Query {
    Query("PERSONAL by idF", [Str(idF)])
  }

  /** `req.baseUrl + '/' + idF + '/product/' + idP` */
  function ProductOfKey(baseUrl: string, idF: string, idP: string): string {
    baseUrl + "/" + idF + "/product/" + idP
  }

  /** `req.baseUrl + '/' + idF + '/personal'` */
  function PersonalKey(baseUrl: string, idF: string): string {
    baseUrl + "/" + idF + "/personal"
  }

  /**
   * `req.basUrl + '/' + id`: the misspelt property is undefined, so the key of
   * a pharmacy is "undefined/<id>" whatever the router is mounted on.
   */
  function ItemKeyAsWritten(id: string): (key: string)
    ensures key == ItemKey("undefined", id)
  {
    "undefined" + "/" + id
  }

  /** Only the list treats an empty result as a 200; every other route answers 404 and stores nothing. */
  const ListPlan: Plan := Plan(false, Raw)
  const FoundPlan: Plan := Plan(true, Raw)

  /** GET /pharmacy?ubigeo&start&size */
  method List(cache: MemCache, baseUrl: string, ubigeoParam: Option<string>, start: Option<int>, size: Option<int>,
              db: Query -> DbResult)
    returns (resp: Response, issued: seq<Query>)
    modifies cache
    // a region code of odd UTF-16 length is refused before the cache or the database is consulted
    ensures Length(OrText(ubigeoParam, "")) % 2 == 1 ==>
              resp == Status(401) && issued == [] && cache.entries == old(cache.entries) && cache.now == old(cache.now)
    ensures Length(OrText(ubigeoParam, "")) % 2 == 0 ==>
              var ubigeo, w := OrText(ubigeoParam, ""), Clamp(start, size);
              var key := ListKey(baseUrl, ubigeo, w);
              Did(cache, key, ReadThrough(old(cache.Get(key)), ListQuery(ubigeo, w), db, ListPlan), TimeCache, resp, issued)
  {
    var w := Clamp(start, size);
    var ubigeo := OrText(ubigeoParam, "");
    if Length(ubigeo) % 2 == 1 {
      return Status(401), [];
    }
    var key := ListKey(baseUrl, ubigeo, w);
    var stmt := "FARMACIA active, limit";
    var params: seq<Value> := [];
    if ubigeo != "" {
      stmt := "FARMACIA active by ubigeo prefix, limit";
      params := params + [Num(Length(ubigeo) as real)];
      params := params + [Str(ubigeo)];
    }
    params := params + [Num(w.start as real)];
    params := params + [Num(w.size as real)];
    assert Query(stmt, params) == ListQuery(ubigeo, w);
    resp, issued := Serve(cache, key, Query(stmt, params), db, ListPlan, TimeCache);
  }

  /** GET /pharmacy/:id */
  method Item(cache: MemCache, id: string, db: Query -> DbResult)
    returns (resp: Response, issued: seq<Query>)
    modifies cache
    ensures var key := ItemKeyAsWritten(id);
            Did(cache, key, ReadThrough(old(cache.Get(key)), ItemQuery(id), db, FoundPlan), TimeCache, resp, issued)
  {
    resp, issued := Serve(cache, ItemKeyAsWritten(id), ItemQuery(id), db, FoundPlan, TimeCache);
  }

  /** GET /pharmacy/:id/products?start&size */
  method Products(cache: MemCache, baseUrl: string, idF: string, start: Option<int>, size: Option<int>, db: Query -> DbResult)
    returns (resp: Response, issued: seq<Query>)
    modifies cache
    ensures var w := Clamp(start, size); var key := ProductsKey(baseUrl, idF, w);
            Did(cache, key, ReadThrough(old(cache.Get(key)), ProductsQuery(idF, w), db, FoundPlan), TimeCache, resp, issued)
  {
    var w := Clamp(start, size);
    resp, issued := Serve(cache, ProductsKey(baseUrl, idF, w), ProductsQuery(idF, w), db, FoundPlan, TimeCache);
  }

  /** GET /pharmacy/:idF/product/:idP */
  method ProductOf(cache: MemCache, baseUrl: string, idF: string, idP: string, db: Query -> DbResult)
    returns (resp: Response, issued: seq<Query>)
    modifies cache
    ensures var key := ProductOfKey(baseUrl, idF, idP);
            Did(cache, key, ReadThrough(old(cache.Get(key)), ProductOfQuery(idF, idP), db, FoundPlan), TimeCache, resp, issued)
  {
    resp, issued := Serve(cache, ProductOfKey(baseUrl, idF, idP), ProductOfQuery(idF, idP), db, FoundPlan, TimeCache);
  }

  /** GET /pharmacy/:id/personal */
  method Personal(cache: MemCache, baseUrl: string, idF: string, db: Query -> DbResult)
    returns (resp: Response, issued: seq<Query>)
    modifies cache
    ensures var key := PersonalKey(baseUrl, idF);
            Did(cache, key, ReadThrough(old(cache.Get(key)), PersonalQuery(idF), db, FoundPlan), TimeCache, resp, issued)
  {
    resp, issued := Serve(cache, PersonalKey(baseUrl, idF), PersonalQuery(idF), db, FoundPlan, TimeCache);
  }

  /**
   * Two list requests share a cache entry exactly when they name the same
   * region code and the same clamped window.
   */
  lemma ListKeyInjective(baseUrl: string, u1: string, w1: Window, u2: string, w2: Window)
    ensures ListKey(baseUrl, u1, w1) == ListKey(baseUrl, u2, w2) <==> u1 == u2 && w1 == w2
  {
    if ListKey(baseUrl, u1, w1) == ListKey(baseUrl, u2, w2) {
      var x1 := baseUrl + "?ubigeo=" + u1 + "&";
      var x2 := baseUrl + "?ubigeo=" + u2 + "&";
      assert ListKey(baseUrl, u1, w1) == x1 + WindowText(w1);
      assert ListKey(baseUrl, u2, w2) == x2 + WindowText(w2);
      WindowTextInjective(x1, w1, x2, w2);
      var p := baseUrl + "?ubigeo=";
      assert x1 == p + u1 + "&" && x2 == p + u2 + "&";
      assert u1 == x1[|p|..|x1| - 1] == u2;
    }
  }
}
