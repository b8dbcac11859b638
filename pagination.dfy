/**
 * The pagination clamp every listing handler repeats,
 *   start = max(parseInt(q.start) || 0, 0)
 *   size  = min(max(1, parseInt(q.size) || 10), 100)
 * and the cache keys built from the clamped window.
 * Because of `|| default`, a `0` parses to a falsy number and falls back to
 * the default exactly as an unparsable parameter does.
 */
module Pagination {
  import opened Js

  /** `parseInt(x) || fallback`: a NaN or a zero gives the fallback. */
  function OrInt(parsed: Option<int>, fallback: int): int {
    if parsed.Some? && parsed.value != 0 then parsed.value else fallback
  }

  function Start(parsed: Option<int>): (start: nat)
    ensures parsed.Some? && parsed.value > 0 ==> start == parsed.value
    ensures parsed.None? || parsed.value <= 0 ==> start == 0
  {
    var start := OrInt(parsed, 0);
    if start < 0 then 0 else start
  }

  function Size(parsed: Option<int>): (size: nat)
    ensures 1 <= size <= 100
    ensures parsed.None? || parsed.value == 0 ==> size == 10
    ensures parsed.Some? && parsed.value < 0 ==> size == 1
    ensures parsed.Some? && 1 <= parsed.value <= 100 ==> size == parsed.value
    ensures parsed.Some? && parsed.value > 100 ==> size == 100
  {
    var size := OrInt(parsed, 10);
    var size := if size < 1 then 1 else size;
    if size > 100 then 100 else size
  }

  /** A clamped window: start >= 0 and 1 <= size <= 100. */
  datatype Window = Window(start: nat, size: nat)

  predicate ValidWindow(w: Window) {
    1 <= w.size <= 100
  }

  function Clamp(start: Option<int>, size: Option<int>): (w: Window)
    ensures ValidWindow(w)
    ensures w.start == Start(start) && w.size == Size(size)
  {
    Window(Start(start), Size(size))
  }

  /** The `[start, size]` values bound to a `limit ?, ?`. */
  function WindowParams(w: Window): seq<Value> {
    [Num(w.start as real), Num(w.size as real)]
  }

  /** "start=<start>&size=<size>", the tail of every paginated cache key. */
  function WindowText(w: Window): string {
    "start=" + NatText(w.start) + "&size=" + NatText(w.size)
  }

  /**
   * The window text at the end of a key can be split off in exactly one way,
   * whatever precedes it: keys that differ in their window never collide.
   */
  lemma WindowTextInjective(x1: string, w1: Window, x2: string, w2: Window)
    requires x1 + WindowText(w1) == x2 + WindowText(w2)
    ensures x1 == x2 && w1 == w2
  {
    var y1 := x1 + "start=" + NatText(w1.start) + "&size=";
    var y2 := x2 + "start=" + NatText(w2.start) + "&size=";
    assert x1 + WindowText(w1) == y1 + NatText(w1.size);
    assert x2 + WindowText(w2) == y2 + NatText(w2.size);
    DigitSuffix(y1, w1.size, y2, w2.size);
    var z1 := x1 + "start=";
    var z2 := x2 + "start=";
    assert y1 == (z1 + NatText(w1.start)) + "&size=";
    assert y2 == (z2 + NatText(w2.start)) + "&size=";
    assert z1 + NatText(w1.start) == y1[..|y1| - 6] == z2 + NatText(w2.start);
    DigitSuffix(z1, w1.start, z2, w2.start);
    assert x1 == z1[..|z1| - 6] == x2;
  }
}

/** The cache keys shared by the listing routers. */
module Keys {
  import opened Js
  import opened Pagination

  /** `req.baseUrl + '?start=' + start + '&size=' + size` */
  function PageKey(baseUrl: string, w: Window): string {
    baseUrl + "?" + WindowText(w)
  }

  /** `req.baseUrl + '/' + id` */
  function ItemKey(baseUrl: string, id: string): string {
    baseUrl + "/" + id
  }

  /** `req.baseUrl + '/' + id + '/products' + '?start=' + start + '&size=' + size` */
  function ProductsKey(baseUrl: string, id: string, w: Window): string {
    baseUrl + "/" + id + "/products" + "?" + WindowText(w)
  }

  /** Requests for the same list share one entry exactly when their clamped windows are equal. */
  lemma PageKeyInjective(baseUrl: string, w1: Window, w2: Window)
    ensures PageKey(baseUrl, w1) == PageKey(baseUrl, w2) <==> w1 == w2
  {
    if PageKey(baseUrl, w1) == PageKey(baseUrl, w2) {
      WindowTextInjective(baseUrl + "?", w1, baseUrl + "?", w2);
    }
  }

  lemma ItemKeyInjective(baseUrl: string, id1: string, id2: string)
    ensures ItemKey(baseUrl, id1) == ItemKey(baseUrl, id2) <==> id1 == id2
  {
    if ItemKey(baseUrl, id1) == ItemKey(baseUrl, id2) {
      var p := baseUrl + "/";
      assert id1 == ItemKey(baseUrl, id1)[|p|..] == id2;
    }
  }

  /** Product listings of one parent share an entry exactly when parent id and window are equal. */
  lemma ProductsKeyInjective(baseUrl: string, id1: string, w1: Window, id2: string, w2: Window)
    ensures ProductsKey(baseUrl, id1, w1) == ProductsKey(baseUrl, id2, w2) <==> id1 == id2 && w1 == w2
  {
    if ProductsKey(baseUrl, id1, w1) == ProductsKey(baseUrl, id2, w2) {
      var x1 := baseUrl + "/" + id1 + "/products" + "?";
      var x2 := baseUrl + "/" + id2 + "/products" + "?";
      WindowTextInjective(x1, w1, x2, w2);
      var p := baseUrl + "/";
      assert x1 == p + id1 + "/products?";
      assert x2 == p + id2 + "/products?";
      assert id1 == x1[|p|..|x1| - 10] == id2;
    }
  }
}
