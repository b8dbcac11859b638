/**
 * routes/medicine/laboratory.js: the laboratory list, a laboratory by id, and
 * the products of a laboratory, which first checks that the laboratory
 * exists and then reshapes the product rows without the `tipo` column.
 */
module Laboratory {
  import opened Js
  import opened Http
  import opened Cache
  import opened Pagination
  import opened Keys
  import opened Reshape
  import opened CacheAside

  function ListQuery(w: Window): Query {
    Query("LABORATORIO, limit", WindowParams(w))
  }

  function ItemQuery(id: string): Query {
    Query("LABORATORIO by id", [Str(id)])
  }

  /** The existence check of the products route. */
  function NameQuery(id: string): Query {
    Query("LABORATORIO nombre by id", [Str(id)])
  }

  function ProductsQuery(id: string, w: Window): Query {
    Query("PRODUCTO+lookups by laboratorio, limit", [Str(id)] + WindowParams(w))
  }

  const ListPlan: Plan := Plan(false, Raw)
  const ItemPlan: Plan := Plan(true, Raw)
  const ProductsPlan: Plan := Plan(true, Nested(false))

  /**
   * GET /laboratory/:id/products on a given cache content: a hit answers from
   * the cache; otherwise an unknown laboratory is a 404 (a failure a 500)
   * before the product query is issued, and a known one continues as an
   * ordinary read of its product page.
   */
  function ProductsOf(cached: Value, id: string, w: Window, db: Query -> DbResult): (s: Served)
    ensures Truthy(cached) ==> s == Served(Response(200, Json(cached)), [], None)
    ensures !Truthy(cached) && db(NameQuery(id)).DbError? ==> s == Served(Status(500), [NameQuery(id)], None)
    ensures !Truthy(cached) && db(NameQuery(id)) == Rows([]) ==> s == Served(Status(404), [NameQuery(id)], None)
    ensures !Truthy(cached) && db(NameQuery(id)).Rows? && |db(NameQuery(id)).rows| > 0 ==>
              var p := ReadThrough(Null, ProductsQuery(id, w), db, ProductsPlan);
              s == Served(p.resp, [NameQuery(id)] + p.issued, p.stored)
    ensures ProductsQuery(id, w) in s.issued ==> !Truthy(cached) && db(NameQuery(id)).Rows? && |db(NameQuery(id)).rows| > 0
  {
    if Truthy(cached) then Served(Response(200, Json(cached)), [], None)
    else match db(NameQuery(id))
      case DbError => Served(Status(500), [NameQuery(id)], None)
      case Rows(rows) =>
        if |rows| == 0 then Served(Status(404), [NameQuery(id)], None)
        else
          var p := ReadThrough(Null, ProductsQuery(id, w), db, ProductsPlan);
          Served(p.resp, [NameQuery(id)] + p.issued, p.stored)
  }

  /** GET /laboratory?start&size */
  method List(cache: MemCache, baseUrl: string, start: Option<int>, size: Option<int>, db: Query -> DbResult)
    returns (resp: Response, issued: seq<Query>)
    modifies cache
    ensures var w := Clamp(start, size); var key := PageKey(baseUrl, w);
            Did(cache, key, ReadThrough(old(cache.Get(key)), ListQuery(w), db, ListPlan), TimeCache, resp, issued)
  {
    var w := Clamp(start, size);
    resp, issued := Serve(cache, PageKey(baseUrl, w), ListQuery(w), db, ListPlan, TimeCache);
  }

  /** GET /laboratory/:id */
  method Item(cache: MemCache, baseUrl: string, id: string, db: Query -> DbResult)
    returns (resp: Response, issued: seq<Query>)
    modifies cache
    ensures var key := ItemKey(baseUrl, id);
            Did(cache, key, ReadThrough(old(cache.Get(key)), ItemQuery(id), db, ItemPlan), TimeCache, resp, issued)
  {
    resp, issued := Serve(cache, ItemKey(baseUrl, id), ItemQuery(id), db, ItemPlan, TimeCache);
  }

  /** GET /laboratory/:id/products?start&size */
  method Products(cache: MemCache, baseUrl: string, id: string, start: Option<int>, size: Option<int>, db: Query -> DbResult)
    returns (resp: Response, issued: seq<Query>)
    modifies cache
    ensures var w := Clamp(start, size); var key := ProductsKey(baseUrl, id, w);
            Did(cache, key, ProductsOf(old(cache.Get(key)), id, w, db), TimeCache, resp, issued)
  {
    var w := Clamp(start, size);
    var key := ProductsKey(baseUrl, id, w);
    var cachedData := cache.Get(key);
    if Truthy(cachedData) {
      return Response(200, Json(cachedData)), [];
    }
    match db(NameQuery(id))
    case DbError =>
      return Status(500), [NameQuery(id)];
    case Rows(rows) =>
      if |rows| == 0 {
        return Status(404), [NameQuery(id)];
      }
      var products;
      resp, products := Serve(cache, key, ProductsQuery(id, w), db, ProductsPlan, TimeCache);
      issued := [NameQuery(id)] + products;
  }

  /**
   * The products of a known laboratory are sent as one nested object per row,
   * in row order, without `tipo`, each giving back the columns it was built from.
   */
  lemma ProductsAreShaped(id: string, w: Window, db: Query -> DbResult)
    requires db(NameQuery(id)).Rows? && |db(NameQuery(id)).rows| > 0
    requires db(ProductsQuery(id, w)).Rows?
    ensures var rows := db(ProductsQuery(id, w)).rows; var s := ProductsOf(Null, id, w, db);
            |rows| == 0 <==> s.resp == Status(404)
    ensures var rows := db(ProductsQuery(id, w)).rows; var s := ProductsOf(Null, id, w, db);
            |rows| > 0 ==> s.resp.status == 200 && s.resp.body.value.Arr? && |s.resp.body.value.items| == |rows|
    ensures var rows := db(ProductsQuery(id, w)).rows; var s := ProductsOf(Null, id, w, db);
            |rows| > 0 ==> forall i :: 0 <= i < |rows| ==>
              Flatten(s.resp.body.value.items[i]) == Project(rows[i], false) && "tipo" !in s.resp.body.value.items[i].fields
  {
    var rows := db(ProductsQuery(id, w)).rows;
    var s := ProductsOf(Null, id, w, db);
    forall i | 0 <= i < |rows|
      ensures Flatten(ShapeProduct(rows[i], false)) == Project(rows[i], false)
      ensures "tipo" !in ShapeProduct(rows[i], false).fields
    {
      ShapeIsLossless(rows[i], false);
      ShapeKeys(rows[i], false);
    }
  }
}
