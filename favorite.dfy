/**
 * routes/medicine/favorite.js: a user's favourite products. Every request
 * first passes the session resolver, which finds the user of a session id
 * through the shared cache or the accounts service; the handlers then list,
 * add and remove (user, product) pairs of the FAVORITE table.
 */
module Favorite {
  import opened Js
  import opened Http
  import opened Cache
  import opened CacheAside

  /** TIME_CACHE of favorite.js: how long a resolved session is remembered. */
  const SessionTtl: int := 60 * 1000

  const NoSession: string := "No se ha iniciado session."

  /** The refusal of a request without a usable session. */
  function Unauthorized(): Response {
    Response(401, Resm(401, Some(NoSession)))
  }

  /** What the accounts service answers for a session id: its HTTP status and the `id_user` of its JSON body. */
  datatype Account = Account(status: int, idUser: Value)

  /** The resolver either lets the request through as a user or answers it. */
  datatype Outcome = Proceed(user: Value) | Refuse(resp: Response)

  /** The resolver's outcome, the session ids it asked the accounts service about, and what it cached. */
  datatype Resolved = Resolved(outcome: Outcome, asked: seq<string>, stored: Option<Value>)

  /**
   * `userData == 'none'` for the values the cache can hold: only a string
   * equal to "none", or an array whose only element is that string, compare
   * equal; null, undefined, booleans and numbers never do ("none" converts to
   * NaN).
   */
  predicate LooselyEqualsNone(v: Value) {
    match v
    case Str(t) => t == "none"
    case Arr(items) => |items| == 1 && items[0] == Str("none")
    case _ => false
  }

  /**
   * The session resolver on a given cache content: the session id is the
   * first of cookie, query and body that is present; a cached truthy user
   * proceeds without asking the accounts service; otherwise a non-200 answer
   * is refused and remembered as the sentinel "none", and a 200 answer's
   * `id_user` is remembered and proceeds.
   */
  function Resolution(cached: Value, session: Option<string>, accounts: string -> Account): (r: Resolved)
    ensures session.None? <==> r == Resolved(Refuse(Unauthorized()), [], None)
    ensures session.Some? && Truthy(cached) ==> r == Resolved(Proceed(cached), [], None)
    ensures r.asked != [] <==> session.Some? && !Truthy(cached)
    ensures r.asked != [] ==> r.asked == [session.value] && r.stored.Some?
    ensures r.asked != [] && accounts(session.value).status != 200 ==>
              r.outcome == Refuse(Unauthorized()) && r.stored == Some(Str("none"))
    ensures r.asked != [] && accounts(session.value).status == 200 ==>
              r.outcome == Proceed(accounts(session.value).idUser) && r.stored == Some(accounts(session.value).idUser)
  {
    if session.None? then Resolved(Refuse(Unauthorized()), [], None)
    else if Truthy(cached) then Resolved(Proceed(cached), [], None)
    else
      var account := accounts(session.value);
      if account.status != 200 then Resolved(Refuse(Unauthorized()), [session.value], Some(Str("none")))
      else Resolved(Proceed(account.idUser), [session.value], Some(account.idUser))
  }

  /** `req.cookies.session_id || req.query.session_id || req.body.session_id` */
  function SessionOf(cookie: Option<string>, query: Option<string>, body: Option<string>): Option<string> {
    FirstText([cookie, query, body])
  }

  /** The middleware in front of every favourites route, on the shared cache keyed by session id. */
  method Resolve(cache: MemCache, cookie: Option<string>, query: Option<string>, body: Option<string>,
                 accounts: string -> Account)
    returns (outcome: Outcome, asked: seq<string>)
    modifies cache
    ensures var session := SessionOf(cookie, query, body);
            var r := Resolution(old(cache.Get(OrText(session, ""))), session, accounts);
            outcome == r.outcome && asked == r.asked && Applied(cache, OrText(session, ""), r.stored, SessionTtl)
  {
    var session := SessionOf(cookie, query, body);
    if session.None? {
      return Refuse(Unauthorized()), [];
    }
    var userData := cache.Get(session.value);
    if Truthy(userData) {
      return Proceed(userData), [];
    }
    asked := [session.value];
    var account := accounts(session.value);
    if account.status != 200 {
      cache.Put(session.value, Str("none"), SessionTtl);
      return Refuse(Unauthorized()), asked;
    }
    cache.Put(session.value, account.idUser, SessionTtl);
    outcome := Proceed(account.idUser);
  }

  /**
   * The `userData == 'none'` refusal after the truthiness test can never be
   * taken: the sentinel is a non-empty string, so the truthy branch before it
   * already let the request through.
   */
  lemma SentinelBranchDead(v: Value)
    ensures LooselyEqualsNone(v) ==> Truthy(v)
    ensures Truthy(Str("none"))
  {
  }

  /**
   * A session the accounts service refused is remembered for a minute as a
   * truthy "none": until it expires, the same session proceeds as the user
   * "none" without the accounts service being asked again.
   */
  lemma RefusedSessionProceeds(entries: map<string, Entry>, now: int, session: string, accounts: string -> Account,
                               accounts2: string -> Account, elapsed: nat)
    requires !Truthy(Lookup(entries, now, session))
    requires accounts(session).status != 200
    ensures var first := Resolution(Lookup(entries, now, session), Some(session), accounts);
            first.outcome == Refuse(Unauthorized())
            && (elapsed <= SessionTtl ==>
                  Resolution(Lookup(Stored(entries, session, first.stored, now, SessionTtl), now + elapsed, session),
                             Some(session), accounts2)
                  == Resolved(Proceed(Str("none")), [], None))
  {
    PutThenGet(entries, now, session, Str("none"), SessionTtl, elapsed, session + "'");
  }

  // ---------------------------------------------------------------- the FAVORITE table

  /** A FAVORITE row. */
  datatype Favorite = Favorite(user: Value, product: Value)

  /** The table's unique key on (idUser, idProducto). */
  predicate NoDuplicates(rows: seq<Favorite>) {
    forall i, j :: 0 <= i < j < |rows| ==> rows[i] != rows[j]
  }

  /** `{idProducto}` */
  function ProductRow(product: Value): Value {
    Obj(map["idProducto" := product])
  }

  /** `SELECT idProducto from FAVORITE WHERE idUser = ?`, in table order. */
  function ProductsOf(rows: seq<Favorite>, user: Value): (r: seq<Value>)
    ensures forall v :: v in r <==> exists f :: f in rows && f.user == user && v == ProductRow(f.product)
    ensures |r| <= |rows|
  {
    if rows == [] then []
    else
      (if rows[0].user == user then [ProductRow(rows[0].product)] else []) + ProductsOf(rows[1..], user)
  }

  /** `DELETE FROM FAVORITE WHERE idUser = ? and idProducto = ?` */
  function Without(rows: seq<Favorite>, f: Favorite): (r: seq<Favorite>)
    ensures forall g :: g in r <==> g in rows && g != f
    ensures NoDuplicates(rows) ==> NoDuplicates(r)
    ensures f !in rows ==> r == rows
    ensures NoDuplicates(rows) && f in rows ==> |r| == |rows| - 1
  {
    if rows == [] then []
    else
      var rest := Without(rows[1..], f);
      assert NoDuplicates(rows) ==> NoDuplicates(rows[1..]) by {
        if NoDuplicates(rows) {
          forall i, j | 0 <= i < j < |rows[1..]| ensures rows[1..][i] != rows[1..][j] {
            assert rows[1..][i] == rows[i + 1] && rows[1..][j] == rows[j + 1];
          }
        }
      }
      var kept := [rows[0]] + rest;
      assert NoDuplicates(rows) ==> NoDuplicates(kept) by {
        if NoDuplicates(rows) {
          forall i, j | 0 <= i < j < |kept| ensures kept[i] != kept[j] {
            assert kept[j] == rest[j - 1] && kept[j] in rest;
            if i > 0 {
              assert kept[i] == rest[i - 1];
            }
          }
        }
      }
      if rows[0] == f then rest else kept
  }

  class FavoriteTable {
    var rows: seq<Favorite>

    predicate Valid()
      reads this
    {
      NoDuplicates(rows)
    }

    constructor ()
      ensures rows == [] && Valid()
    {
      rows := [];
    }

    /** GET /favorites: the product ids of the resolved user; `down` says the query fails. */
    method List(user: Value, down: bool) returns (resp: Response)
      ensures down ==> resp == Status(500)
      ensures !down ==> resp == Response(200, Json(Arr(ProductsOf(rows, user))))
    {
      if down {
        return Status(500);
      }
      resp := Response(200, Json(Arr(ProductsOf(rows, user))));
    }

    /** POST /favorites: add the pair (user, idProducto); `down` says the insert fails for a reason other than the unique key. */
    method Add(user: Value, product: Value, down: bool) returns (resp: Response)
      requires Valid()
      modifies this
      ensures Valid()
      ensures !Truthy(product) ==>
                resp == Response(400, Resm(400, Some("No se ha encontrado el id de producto."))) && rows == old(rows)
      ensures Truthy(product) && down ==> resp == Status(500) && rows == old(rows)
      ensures Truthy(product) && !down && Favorite(user, product) in old(rows) ==>
                resp == Response(409, Resm(409, Some("El producto ya existe en favoritos."))) && rows == old(rows)
      ensures Truthy(product) && !down && Favorite(user, product) !in old(rows) ==>
                resp == Status(200) && rows == old(rows) + [Favorite(user, product)]
    {
      if !Truthy(product) {
        return Response(400, Resm(400, Some("No se ha encontrado el id de producto.")));
      }
      if down {
        return Status(500);
      }
      var f := Favorite(user, product);
      if f in rows {
        return Response(409, Resm(409, Some("El producto ya existe en favoritos.")));
      }
      rows := rows + [f];
      resp := Status(200);
    }

    /** DELETE /favorites and POST /favorites/delete: remove the pair (user, idProducto). */
    method Remove(user: Value, product: Value, down: bool) returns (resp: Response)
      requires Valid()
      modifies this
      ensures Valid()
      ensures !Truthy(product) ==> resp == Status(400) && rows == old(rows)
      ensures Truthy(product) && down ==> resp == Status(500) && rows == old(rows)
      ensures Truthy(product) && !down && Favorite(user, product) !in old(rows) ==>
                resp == Response(404, Resm(404, Some("Elproducto no esta como favorito."))) && rows == old(rows)
      ensures Truthy(product) && !down && Favorite(user, product) in old(rows) ==>
                resp == Status(200) && rows == Without(old(rows), Favorite(user, product))
    {
      if !Truthy(product) {
        return Status(400);
      }
      if down {
        return Status(500);
      }
      var f := Favorite(user, product);
      var kept := Without(rows, f);
      if |kept| == |rows| {
        return Response(404, Resm(404, Some("Elproducto no esta como favorito.")));
      }
      rows := kept;
      resp := Status(200);
    }
  }

  /** Removing a pair just added gives back the table as it was. */
  lemma {:induction false} RemoveUndoesAdd(rows: seq<Favorite>, f: Favorite)
    requires f !in rows
    ensures Without(rows + [f], f) == rows
  {
    if rows != [] {
      assert (rows + [f])[1..] == rows[1..] + [f];
      RemoveUndoesAdd(rows[1..], f);
    }
  }

  /** A pair is listed for its user exactly while it is in the table. */
  lemma ListedIffStored(rows: seq<Favorite>, user: Value, product: Value)
    ensures ProductRow(product) in ProductsOf(rows, user) <==> Favorite(user, product) in rows
  {
    if ProductRow(product) in ProductsOf(rows, user) {
      var f :| f in rows && f.user == user && ProductRow(product) == ProductRow(f.product);
      assert ProductRow(product).fields["idProducto"] == f.product;
    }
  }

  /** Listing is per user: another user's pairs never appear, whatever is added or removed for them. */
  lemma {:induction false} OtherUsersUnaffected(rows: seq<Favorite>, f: Favorite, user: Value)
    requires f.user != user
    ensures ProductsOf(rows + [f], user) == ProductsOf(rows, user)
    ensures ProductsOf(Without(rows, f), user) == ProductsOf(rows, user)
  {
    if rows != [] {
      assert (rows + [f])[1..] == rows[1..] + [f];
      OtherUsersUnaffected(rows[1..], f, user);
    }
  }
}
