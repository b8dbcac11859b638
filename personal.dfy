/** routes/medicine/personal.js: the staff list of all pharmacies, read through the shared cache. */
module Personal {
  import opened Js
  import opened Http
  import opened Cache
  import opened Pagination
  import opened Keys
  import opened CacheAside

  function ListQuery(w: Window): Query {
    Query("PERSONAL, limit", WindowParams(w))
  }

  const ListPlan: Plan := Plan(false, Raw)

  /** GET /personal?start&size */
  method List(cache: MemCache, baseUrl: string, start: Option<int>, size: Option<int>, db: Query -> DbResult)
    returns (resp: Response, issued: seq<Query>)
    modifies cache
    ensures var w := Clamp(start, size); var key := PageKey(baseUrl, w);
            Did(cache, key, ReadThrough(old(cache.Get(key)), ListQuery(w), db, ListPlan), TimeCache, resp, issued)
  {
    var w := Clamp(start, size);
    resp, issued := Serve(cache, PageKey(baseUrl, w), ListQuery(w), db, ListPlan, TimeCache);
  }
}
