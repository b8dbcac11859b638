/**
 * routes/medicine/reg_san.js: the sanitary-registration list, one
 * registration by id, and the products carrying a registration, reshaped
 * without the `tipo` column.
 */
module RegSan {
  import opened Js
  import opened Http
  import opened Cache
  import opened Pagination
  import opened Keys
  import opened Reshape
  import opened CacheAside

  function ListQuery(w: Window): Query {
    Query("REG_SAN, limit", WindowParams(w))
  }

  function ItemQuery(id: string): Query {
    Query("REG_SAN by id", [Str(id)])
  }

  function ProductsQuery(id: string, w: Window): Query {
    Query("PRODUCTO+lookups by reg_san, limit", [Str(id)] + WindowParams(w))
  }

  const ListPlan: Plan := Plan(false, Raw)
  const ItemPlan: Plan := Plan(true, Raw)
  const ProductsPlan: Plan := Plan(true, Nested(false))

  /** GET /reg_san?start&size */
  method List(cache: MemCache, baseUrl: string, start: Option<int>, size: Option<int>, db: Query -> DbResult)
    returns (resp: Response, issued: seq<Query>)
    modifies cache
    ensures var w := Clamp(start, size); var key := PageKey(baseUrl, w);
            Did(cache, key, ReadThrough(old(cache.Get(key)), ListQuery(w), db, ListPlan), TimeCache, resp, issued)
  {
    var w := Clamp(start, size);
    resp, issued := Serve(cache, PageKey(baseUrl, w), ListQuery(w), db, ListPlan, TimeCache);
  }

  /** GET /reg_san/:id */
  method Item(cache: MemCache, baseUrl: string, id: string, db: Query -> DbResult)
    returns (resp: Response, issued: seq<Query>)
    modifies cache
    ensures var key := ItemKey(baseUrl, id);
            Did(cache, key, ReadThrough(old(cache.Get(key)), ItemQuery(id), db, ItemPlan), TimeCache, resp, issued)
  {
    resp, issued := Serve(cache, ItemKey(baseUrl, id), ItemQuery(id), db, ItemPlan, TimeCache);
  }

  /** GET /reg_san/:id/products?start&size */
  method Products(cache: MemCache, baseUrl: string, id: string, start: Option<int>, size: Option<int>, db: Query -> DbResult)
    returns (resp: Response, issued: seq<Query>)
    modifies cache
    ensures var w := Clamp(start, size); var key := ProductsKey(baseUrl, id, w);
            Did(cache, key, ReadThrough(old(cache.Get(key)), ProductsQuery(id, w), db, ProductsPlan), TimeCache, resp, issued)
  {
    var w := Clamp(start, size);
    resp, issued := Serve(cache, ProductsKey(baseUrl, id, w), ProductsQuery(id, w), db, ProductsPlan, TimeCache);
  }

  /**
   * The products of a registration: none is a 404 that stores nothing;
   * otherwise one nested object per row, in row order, without `tipo`.
   */
  lemma ProductsAreShaped(id: string, w: Window, db: Query -> DbResult)
    requires db(ProductsQuery(id, w)).Rows?
    ensures var rows := db(ProductsQuery(id, w)).rows; var s := ReadThrough(Null, ProductsQuery(id, w), db, ProductsPlan);
            |rows| == 0 <==> s.resp == Status(404) && s.stored.None?
    ensures var rows := db(ProductsQuery(id, w)).rows; var s := ReadThrough(Null, ProductsQuery(id, w), db, ProductsPlan);
            |rows| > 0 ==> s.resp.status == 200 && s.resp.body.value.Arr? && |s.resp.body.value.items| == |rows|
    ensures var rows := db(ProductsQuery(id, w)).rows; var s := ReadThrough(Null, ProductsQuery(id, w), db, ProductsPlan);
            |rows| > 0 ==> forall i :: 0 <= i < |rows| ==>
              Flatten(s.resp.body.value.items[i]) == Project(rows[i], false) && "tipo" !in s.resp.body.value.items[i].fields
  {
    var rows := db(ProductsQuery(id, w)).rows;
    forall i | 0 <= i < |rows|
      ensures Flatten(ShapeProduct(rows[i], false)) == Project(rows[i], false)
      ensures "tipo" !in ShapeProduct(rows[i], false).fields
    {
      ShapeIsLossless(rows[i], false);
      ShapeKeys(rows[i], false);
    }
  }
}
