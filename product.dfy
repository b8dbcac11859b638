/**
 * routes/medicine/product.js: the product list and a product by id, both
 * reshaped into nested objects that keep the `tipo` column, read through the
 * shared cache.
 */
module Product {
  import opened Js
  import opened Http
  import opened Cache
  import opened Pagination
  import opened Keys
  import opened Reshape
  import opened CacheAside

  /** The joined product page `limit ?, ?`. */
  function ListQuery(w: Window): Query {
    Query("PRODUCTO+lookups, limit", WindowParams(w))
  }

  /** The joined product `where pro.id = ?`. */
  function ItemQuery(id: string): Query {
    Query("PRODUCTO+lookups by id", [Str(id)])
  }

  /** An empty page is still a 200 and is cached; an unknown id is a 404. */
  const ListPlan: Plan := Plan(false, Nested(true))
  const ItemPlan: Plan := Plan(true, Nested(true))

  /** GET /product?start&size */
  method List(cache: MemCache, baseUrl: string, start: Option<int>, size: Option<int>, db: Query -> DbResult)
    returns (resp: Response, issued: seq<Query>)
    modifies cache
    ensures var w := Clamp(start, size); var key := PageKey(baseUrl, w);
            Did(cache, key, ReadThrough(old(cache.Get(key)), ListQuery(w), db, ListPlan), TimeCache, resp, issued)
  {
    var w := Clamp(start, size);
    resp, issued := Serve(cache, PageKey(baseUrl, w), ListQuery(w), db, ListPlan, TimeCache);
  }

  /** GET /product/:id */
  method Item(cache: MemCache, baseUrl: string, id: string, db: Query -> DbResult)
    returns (resp: Response, issued: seq<Query>)
    modifies cache
    ensures var key := ItemKey(baseUrl, id);
            Did(cache, key, ReadThrough(old(cache.Get(key)), ItemQuery(id), db, ItemPlan), TimeCache, resp, issued)
  {
    resp, issued := Serve(cache, ItemKey(baseUrl, id), ItemQuery(id), db, ItemPlan, TimeCache);
  }

  /**
   * What a product request sends on a successful miss: one nested object per
   * row, in row order, each carrying `tipo` and giving back every column it
   * was built from.
   */
  lemma ItemSendsShapedRows(cached: Value, id: string, db: Query -> DbResult)
    requires !Truthy(cached) && db(ItemQuery(id)).Rows?
    ensures var rows := db(ItemQuery(id)).rows; var s := ReadThrough(cached, ItemQuery(id), db, ItemPlan);
            |rows| == 0 <==> s.resp == Status(404)
    ensures var rows := db(ItemQuery(id)).rows; var s := ReadThrough(cached, ItemQuery(id), db, ItemPlan);
            |rows| > 0 ==> s.resp.status == 200 && s.resp.body.value.Arr? && |s.resp.body.value.items| == |rows|
    ensures var rows := db(ItemQuery(id)).rows; var s := ReadThrough(cached, ItemQuery(id), db, ItemPlan);
            |rows| > 0 ==> forall i :: 0 <= i < |rows| ==>
              Flatten(s.resp.body.value.items[i]) == Project(rows[i], true) && "tipo" in s.resp.body.value.items[i].fields
  {
    var rows := db(ItemQuery(id)).rows;
    var s := ReadThrough(cached, ItemQuery(id), db, ItemPlan);
    forall i | 0 <= i < |rows|
      ensures Flatten(s.resp.body.value.items[i]) == Project(rows[i], true)
    {
      ShapeIsLossless(rows[i], true);
    }
  }
}
