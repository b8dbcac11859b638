/**
 * routes/medicine/presentation.js: the PRESENTACION list and one PRESENTACION row by id,
 * read through the shared cache.
 */
module Presentation {
  import opened Js
  import opened Http
  import opened Cache
  import opened Pagination
  import opened Keys
  import opened CacheAside

  function ListQuery(w: Window): Query {
    Query("PRESENTACION, limit", WindowParams(w))
  }

  function ItemQuery(id: string): Query {
    Query("PRESENTACION by id", [Str(id)])
  }

  const ListPlan: Plan := Plan(false, Raw)
  const ItemPlan: Plan := Plan(true, Raw)

  /** GET /presentation?start&size */
  method List(cache: MemCache, baseUrl: string, start: Option<int>, size: Option<int>, db: Query -> DbResult)
    returns (resp: Response, issued: seq<Query>)
    modifies cache
    ensures var w := Clamp(start, size); var key := PageKey(baseUrl, w);
            Did(cache, key, ReadThrough(old(cache.Get(key)), ListQuery(w), db, ListPlan), TimeCache, resp, issued)
  {
    var w := Clamp(start, size);
    resp, issued := Serve(cache, PageKey(baseUrl, w), ListQuery(w), db, ListPlan, TimeCache);
  }

  /** GET /presentation/:id */
  method Item(cache: MemCache, baseUrl: string, id: string, db: Query -> DbResult)
    returns (resp: Response, issued: seq<Query>)
    modifies cache
    ensures var key := ItemKey(baseUrl, id);
            Did(cache, key, ReadThrough(old(cache.Get(key)), ItemQuery(id), db, ItemPlan), TimeCache, resp, issued)
  {
    resp, issued := Serve(cache, ItemKey(baseUrl, id), ItemQuery(id), db, ItemPlan, TimeCache);
  }
}
