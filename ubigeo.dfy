/**
 * routes/medicine/ubigeo.js: the tree of Peruvian administrative regions.
 * `?ubigeo` absent or 0 lists the top-level regions (ids below 100); any
 * other code lists the children of that region, or is a 404 when no region
 * has that id. The UBIGEO table is a sequence of places; whether a query
 * fails is an input.
 */
module Ubigeo {
  import opened Js
  import opened Http
  import opened Cache
  import opened CacheAside

  /** A UBIGEO row: its id, its parent's id, and the row as sent. */
  datatype Place = Place(id: int, parent: int, row: Value)

  /** `a` is `b` with some places left out, the rest in `b`'s order. */
  predicate Subsequence(a: seq<Place>, b: seq<Place>)
    decreases |b|
  {
    if a == [] then true
    else if b == [] then false
    else (a[0] == b[0] && Subsequence(a[1..], b[1..])) || Subsequence(a, b[1..])
  }

  /** Leaving out the first place of `b` keeps `a` a subsequence of it. */
  lemma SubsequenceSkip(a: seq<Place>, b: seq<Place>)
    requires b != [] && Subsequence(a, b[1..])
    ensures Subsequence(a, b)
  {
  }

  /** A `where` clause: the places `keep` accepts, in table order, each as often as the table holds it. */
  function Where(table: seq<Place>, keep: Place -> bool): (r: seq<Place>)
    ensures Subsequence(r, table)
    ensures forall p :: multiset(r)[p] == if keep(p) then multiset(table)[p] else 0
  {
    if table == [] then []
    else
      var rest := Where(table[1..], keep);
      assert table == [table[0]] + table[1..];
      if keep(table[0]) then
        assert ([table[0]] + rest)[1..] == rest;
        [table[0]] + rest
      else
        SubsequenceSkip(rest, table);
        rest
  }

  /** `where id < 100`: the roots in table order, each as often as the table holds it, and nothing else. */
  function Roots(table: seq<Place>): (r: seq<Place>)
    ensures Subsequence(r, table)
    ensures forall p :: multiset(r)[p] == if p.id < 100 then multiset(table)[p] else 0
  {
    Where(table, (p: Place) => p.id < 100)
  }

  /** `where id = ?` in table order; a NaN id matches no row. */
  function WithId(table: seq<Place>, id: Option<int>): (r: seq<Place>)
    ensures Subsequence(r, table)
    ensures forall p :: multiset(r)[p] == if id == Some(p.id) then multiset(table)[p] else 0
    ensures id.None? ==> r == []
  {
    var r := Where(table, (p: Place) => id == Some(p.id));
    assert id.None? ==> forall p :: multiset(r)[p] == 0;
    r
  }

  /** `where parent = ?` in table order. */
  function Children(table: seq<Place>, parent: int): (r: seq<Place>)
    ensures Subsequence(r, table)
    ensures forall p :: multiset(r)[p] == if p.parent == parent then multiset(table)[p] else 0
  {
    Where(table, (p: Place) => p.parent == parent)
  }

  /** The rows sent for some places, in table order. */
  function RowsOf(places: seq<Place>): (v: Value)
    ensures v.Arr? && |v.items| == |places|
    ensures forall i :: 0 <= i < |places| ==> v.items[i] == places[i].row
  {
    Arr(seq(|places|, i requires 0 <= i < |places| => places[i].row))
  }

  function RootsQuery(): Query {
    Query("UBIGEO roots, id < 100", [])
  }

  function ByIdQuery(ubigeo: Option<int>): Query {
    Query("UBIGEO by id", [NumberOf(ubigeo)])
  }

  function ChildrenQuery(ubigeo: Option<int>): Query {
    Query("UBIGEO by parent", [NumberOf(ubigeo)])
  }

  /** `parseInt(req.query.ubigeo || '0')` */
  function Code(param: Option<string>): Option<int> {
    ParseInt(OrText(param, "0"))
  }

  /** `req.baseUrl + '?ubigeo=' + ubigeo` */
  function Key(baseUrl: string, ubigeo: Option<int>): string {
    baseUrl + "?ubigeo=" + NumberText(ubigeo)
  }

  /** GET /ubigeo on a given cache content; `down(q)` says that query fails. */
  function Lookup(cached: Value, ubigeo: Option<int>, table: seq<Place>, down: Query -> bool): (s: Served)
    ensures Truthy(cached) ==> s == Served(Response(200, Json(cached)), [], None)
    // code 0: exactly the top-level regions
    ensures !Truthy(cached) && ubigeo == Some(0) ==>
              s.issued == [RootsQuery()]
              && s == (if down(RootsQuery()) then Served(Status(500), s.issued, None)
                       else Served(Response(200, Json(RowsOf(Roots(table)))), s.issued, Some(RowsOf(Roots(table)))))
    // an unknown region is a 404 that stores nothing and never asks for children
    ensures !Truthy(cached) && ubigeo != Some(0) && !down(ByIdQuery(ubigeo)) && WithId(table, ubigeo) == [] ==>
              s == Served(Status(404), [ByIdQuery(ubigeo)], None)
    // a known region: exactly its children
    ensures !Truthy(cached) && ubigeo != Some(0) && !down(ByIdQuery(ubigeo)) && WithId(table, ubigeo) != [] ==>
              ubigeo.Some? && s.issued == [ByIdQuery(ubigeo), ChildrenQuery(ubigeo)]
              && (down(ChildrenQuery(ubigeo)) ==> s.resp == Status(500) && s.stored.None?)
              && (!down(ChildrenQuery(ubigeo)) ==>
                    s.stored == Some(RowsOf(Children(table, ubigeo.value))) && s.resp == Response(200, Json(s.stored.value)))
    ensures !Truthy(cached) && ubigeo != Some(0) && down(ByIdQuery(ubigeo)) ==>
              s == Served(Status(500), [ByIdQuery(ubigeo)], None)
  {
    if Truthy(cached) then Served(Response(200, Json(cached)), [], None)
    else if ubigeo == Some(0) then
      if down(RootsQuery()) then Served(Status(500), [RootsQuery()], None)
      else Served(Response(200, Json(RowsOf(Roots(table)))), [RootsQuery()], Some(RowsOf(Roots(table))))
    else if down(ByIdQuery(ubigeo)) then Served(Status(500), [ByIdQuery(ubigeo)], None)
    else if WithId(table, ubigeo) == [] then Served(Status(404), [ByIdQuery(ubigeo)], None)
    else
      var children := ChildrenQuery(ubigeo);
      if down(children) then Served(Status(500), [ByIdQuery(ubigeo), children], None)
      else
        var rows := RowsOf(Children(table, ubigeo.value));
        Served(Response(200, Json(rows)), [ByIdQuery(ubigeo), children], Some(rows))
  }

  /** GET /ubigeo?ubigeo */
  method List(cache: MemCache, baseUrl: string, param: Option<string>, table: seq<Place>, down: Query -> bool)
    returns (resp: Response, issued: seq<Query>)
    modifies cache
    ensures var key := Key(baseUrl, Code(param));
            Did(cache, key, Lookup(old(cache.Get(key)), Code(param), table, down), TimeCache, resp, issued)
  {
    var ubigeo := Code(param);
    var key := Key(baseUrl, ubigeo);
    var cachedData := cache.Get(key);
    if Truthy(cachedData) {
      return Response(200, Json(cachedData)), [];
    }
    if ubigeo == Some(0) {
      issued := [RootsQuery()];
      if down(RootsQuery()) {
        return Status(500), issued;
      }
      var rows := RowsOf(Roots(table));
      cache.Put(key, rows, TimeCache);
      return Response(200, Json(rows)), issued;
    }
    issued := [ByIdQuery(ubigeo)];
    if down(ByIdQuery(ubigeo)) {
      return Status(500), issued;
    }
    var data := WithId(table, ubigeo);
    if |data| == 0 {
      return Status(404), issued;
    }
    issued := issued + [ChildrenQuery(ubigeo)];
    if down(ChildrenQuery(ubigeo)) {
      return Status(500), issued;
    }
    var rows := RowsOf(Children(table, ubigeo.value));
    assert data[0] in data;
    cache.Put(key, rows, TimeCache);
    resp := Response(200, Json(rows));
  }

  /** A request without `ubigeo` (or with an empty one) asks for the top-level regions under the key "?ubigeo=0". */
  lemma MissingCodeIsZero(baseUrl: string, param: Option<string>)
    requires param.None? || param.value == ""
    ensures Code(param) == Some(0)
    ensures Key(baseUrl, Code(param)) == baseUrl + "?ubigeo=0"
  {
    ParseIntText(0);
  }
}
