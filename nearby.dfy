/**
 * GET /search/pharmacies of routes/medicine/search.js: the active pharmacies
 * selling a product, within `radius` kilometres of a point, nearest first.
 * The great-circle distance is an input function.
 */
module Nearby {
  import opened Js
  import opened Http
  import opened Pagination

  /** The distance in km between a pharmacy's `lat`/`lng` values and the searched point. */
  type Distance = (Value, Value, real, real) -> real

  /** The search after its defaults are applied. */
  datatype Search = Search(product: int, lat: real, lng: real, radius: int)

  /** One candidate: `[id, lat, lng, dist]`. */
  datatype Hit = Hit(id: Value, lat: Value, lng: Value, dist: real)

  /** `parseFloat(x) || fallback` */
  function OrReal(parsed: Option<real>, fallback: real): real {
    if parsed.Some? && parsed.value != 0.0 then parsed.value else fallback
  }

  const DefaultProduct: int := 500000
  const DefaultLat: real := -12.045909
  const DefaultLng: real := -77.03051
  const DefaultRadius: int := 5

  /** The defaults of the query parameters, and `radius = Math.max(radius, 0)`. */
  function Defaults(product: Option<int>, lat: Option<real>, lng: Option<real>, radius: Option<int>): (p: Search)
    ensures p.radius >= 0
    ensures product.None? || product.value == 0 ==> p.product == DefaultProduct
    ensures product.Some? && product.value != 0 ==> p.product == product.value
    ensures lat.None? || lat.value == 0.0 ==> p.lat == DefaultLat
    ensures lat.Some? && lat.value != 0.0 ==> p.lat == lat.value
    ensures lng.None? || lng.value == 0.0 ==> p.lng == DefaultLng
    ensures lng.Some? && lng.value != 0.0 ==> p.lng == lng.value
    ensures radius.None? || radius.value == 0 ==> p.radius == DefaultRadius
    ensures radius.Some? && radius.value < 0 ==> p.radius == 0
    ensures radius.Some? && radius.value > 0 ==> p.radius == radius.value
  {
    var r := OrInt(radius, DefaultRadius);
    Search(OrInt(product, DefaultProduct), OrReal(lat, DefaultLat), OrReal(lng, DefaultLng), if r < 0 then 0 else r)
  }

  /** The parameter limits: a product id in (0, 50000), a point on the globe and a radius up to 200 km. */
  predicate Acceptable(p: Search) {
    !(p.product >= 50000 || p.product <= 0 || p.lat < -90.0 || p.lat > 90.0 || p.lng > 180.0 || p.lng < -180.0 || p.radius > 200)
  }

  /** The pharmacies with state '3' that sell the product. */
  function CandidatesQuery(p: Search): Query {
    Query("FARMACIA*PROD_FARM by estado, idP", [Str("3"), Num(p.product as real)])
  }

  function HitOf(row: Value, p: Search, distance: Distance): Hit {
    var lat, lng := Field(row, "lat"), Field(row, "lng");
    Hit(Field(row, "id"), lat, lng, distance(lat, lng, p.lat, p.lng))
  }

  /** The rows within the radius, as hits, in row order (`if (dist > radius) continue`). */
  function Near(data: seq<Value>, p: Search, distance: Distance): (r: seq<Hit>)
    ensures forall h :: h in r ==> h.dist <= p.radius as real
    ensures |r| <= |data|
  {
    if data == [] then []
    else
      var h := HitOf(data[|data| - 1], p, distance);
      Near(data[..|data| - 1], p, distance) + (if h.dist > p.radius as real then [] else [h])
  }

  predicate SortedByDistance(s: seq<Hit>) {
    forall i, j :: 0 <= i < j < |s| ==> s[i].dist <= s[j].dist
  }

  /** Insert `h` into a sorted sequence after every element that is not farther than it. */
  function Insert(h: Hit, s: seq<Hit>): (r: seq<Hit>)
    requires SortedByDistance(s)
    ensures SortedByDistance(r)
    ensures multiset(r) == multiset(s) + multiset{h}
    ensures |r| == |s| + 1
  {
    if s == [] then [h]
    else if s[|s| - 1].dist <= h.dist then s + [h]
    else
      var last := s[|s| - 1];
      var init := s[..|s| - 1];
      assert s == init + [last];
      var r := Insert(h, init);
      forall k | 0 <= k < |r| ensures r[k].dist <= last.dist {
        assert r[k] in multiset(init) + multiset{h};
        if r[k] != h {
          assert r[k] in init;
        }
      }
      r + [last]
  }

  /**
   * `ans.sort((a, b) => a[3] - b[3])`: ascending distance; hits at equal
   * distance keep their row order.
   */
  function SortByDistance(s: seq<Hit>): (r: seq<Hit>)
    ensures SortedByDistance(r)
    ensures multiset(r) == multiset(s)
    ensures |r| == |s|
  {
    if s == [] then []
    else
      assert s == s[..|s| - 1] + [s[|s| - 1]];
      Insert(s[|s| - 1], SortByDistance(s[..|s| - 1]))
  }

  /** `{id, lat, lng, distance}` */
  function HitObject(h: Hit): Value {
    Obj(map["id" := h.id, "lat" := h.lat, "lng" := h.lng, "distance" := Num(h.dist)])
  }

  function Objects(hits: seq<Hit>): (v: seq<Value>)
    ensures |v| == |hits|
    ensures forall i :: 0 <= i < |hits| ==> v[i] == HitObject(hits[i])
  {
    seq(|hits|, i requires 0 <= i < |hits| => HitObject(hits[i]))
  }

  /** The first loop: the candidates within the radius, with their distance. */
  method KeepNear(data: seq<Value>, p: Search, distance: Distance) returns (ans: seq<Hit>)
    ensures ans == Near(data, p, distance)
  {
    ans := [];
    var ind := 0;
    while ind < |data|
      invariant 0 <= ind <= |data|
      invariant ans == Near(data[..ind], p, distance)
    {
      assert data[..ind + 1][..ind] == data[..ind];
      var h := HitOf(data[ind], p, distance);
      ind := ind + 1;
      if h.dist > p.radius as real {
        continue;
      }
      ans := ans + [h];
    }
    assert data[..|data|] == data;
  }

  /** The second loop: one `{id, lat, lng, distance}` object per sorted hit. */
  method ToObjects(ans: seq<Hit>) returns (json: seq<Value>)
    ensures json == Objects(ans)
  {
    json := [];
    var i := 0;
    while i < |ans|
      invariant 0 <= i <= |ans|
      invariant json == Objects(ans[..i])
    {
      json := json + [HitObject(ans[i])];
      i := i + 1;
    }
    assert ans[..|ans|] == ans;
  }

  /** GET /search/pharmacies?product&lat&lng&radius */
  method Pharmacies(productParam: Option<int>, latParam: Option<real>, lngParam: Option<real>, radiusParam: Option<int>,
                    db: Query -> DbResult, distance: Distance)
    returns (resp: Response, issued: seq<Query>)
    ensures var p := Defaults(productParam, latParam, lngParam, radiusParam);
            !Acceptable(p) ==> resp == Status(400) && issued == []
    ensures var p := Defaults(productParam, latParam, lngParam, radiusParam);
            Acceptable(p) ==> issued == [CandidatesQuery(p)]
    ensures var p := Defaults(productParam, latParam, lngParam, radiusParam);
            Acceptable(p) && db(CandidatesQuery(p)).DbError? ==> resp == Status(500)
    ensures var p := Defaults(productParam, latParam, lngParam, radiusParam);
            Acceptable(p) && db(CandidatesQuery(p)).Rows? ==>
              resp == Response(200, Json(Arr(Objects(SortByDistance(Near(db(CandidatesQuery(p)).rows, p, distance))))))
  {
    var p := Defaults(productParam, latParam, lngParam, radiusParam);
    if !Acceptable(p) {
      return Status(400), [];
    }
    var q := CandidatesQuery(p);
    issued := [q];
    match db(q)
    case DbError =>
      resp := Status(500);
    case Rows(data) =>
      var ans := KeepNear(data, p, distance);
      ans := SortByDistance(ans);
      var json := ToObjects(ans);
      resp := Response(200, Json(Arr(json)));
  }

  /** Without a usable `product` the search falls back to 500000, which its own limit then refuses. */
  lemma DefaultProductRefused(product: Option<int>, lat: Option<real>, lng: Option<real>, radius: Option<int>)
    requires product.None? || product.value == 0
    ensures !Acceptable(Defaults(product, lat, lng, radius))
  {
  }

  /** Every hit of the search is a row within the radius, and every row within the radius is a hit. */
  lemma {:induction false} NearExact(data: seq<Value>, p: Search, distance: Distance, h: Hit)
    ensures h in Near(data, p, distance) <==>
              exists i :: 0 <= i < |data| && h == HitOf(data[i], p, distance) && h.dist <= p.radius as real
  {
    if data != [] {
      var init := data[..|data| - 1];
      NearExact(init, p, distance, h);
      if h in Near(data, p, distance) && h !in Near(init, p, distance) {
        assert h == HitOf(data[|data| - 1], p, distance);
      }
      if exists i :: 0 <= i < |data| && h == HitOf(data[i], p, distance) && h.dist <= p.radius as real {
        var i :| 0 <= i < |data| && h == HitOf(data[i], p, distance) && h.dist <= p.radius as real;
        if i < |data| - 1 {
          assert init[i] == data[i];
        }
      }
    }
  }

  /**
   * The response of a successful search: ascending by distance; every entry a
   * candidate within the radius with its id, lat and lng unchanged; every
   * candidate within the radius present.
   */
  lemma ResultIsNearestFirst(data: seq<Value>, p: Search, distance: Distance)
    ensures var out := SortByDistance(Near(data, p, distance));
            SortedByDistance(out)
            && (forall h :: h in out ==> h.dist <= p.radius as real)
            && (forall i :: 0 <= i < |data| && HitOf(data[i], p, distance).dist <= p.radius as real ==>
                  HitOf(data[i], p, distance) in out)
            && (forall h :: h in out ==> exists i :: 0 <= i < |data| && h == HitOf(data[i], p, distance))
  {
    var near := Near(data, p, distance);
    var out := SortByDistance(near);
    forall h ensures h in out <==> h in near {
      assert h in out <==> h in multiset(out);
      assert h in near <==> h in multiset(near);
    }
    forall i | 0 <= i < |data| && HitOf(data[i], p, distance).dist <= p.radius as real
      ensures HitOf(data[i], p, distance) in out
    {
      NearExact(data, p, distance, HitOf(data[i], p, distance));
    }
    forall h | h in out ensures exists i :: 0 <= i < |data| && h == HitOf(data[i], p, distance) {
      NearExact(data, p, distance, h);
    }
  }
}
