/**
 * routes/medicine/notifications.js: `/news` sends a user the notifications
 * they have not seen and marks them seen; `/sendn` creates a notification for
 * the user with a given email. The user of a session comes from the shared
 * cache or the SESSION table of the accounts database. Whether a statement
 * fails is an input; so is whether the fire-and-forget writes take effect.
 */
module Notifications {
  import opened Js
  import opened Http
  import opened Cache
  import opened CacheAside

  /** How long `/news` remembers a session, in milliseconds. */
  const SessionTtl: int := 30000

  /** The shared secret of `/sendn`. */
  const Token: string := "testing_notifications_zonngo_2017"

  const BadSession: string := "session_id no valido"

  /** A NOTI_USER row: a notification sent to a user, new ('N') or seen ('V'). */
  datatype Link = Link(notification: int, user: Value, state: char)

  /** A link the inner join of `/news` returns for `user`. */
  predicate Pending(l: Link, user: Value, notifications: map<int, Value>) {
    l.user == user && l.state == 'N' && l.notification in notifications
  }

  /** The NOTIFICATIONS rows joined with the user's new NOTI_USER rows, in NOTI_USER order. */
  function Unseen(notifications: map<int, Value>, links: seq<Link>, user: Value): (r: seq<Value>)
    ensures forall v :: v in r <==>
              exists l :: l in links && Pending(l, user, notifications) && v == notifications[l.notification]
    ensures |r| <= |links|
  {
    if links == [] then []
    else
      (if Pending(links[0], user, notifications) then [notifications[links[0].notification]] else [])
      + Unseen(notifications, links[1..], user)
  }

  /** `update NOTI_USER set estado = 'V' where id_user = ?` */
  function MarkSeen(links: seq<Link>, user: Value): (r: seq<Link>)
    ensures |r| == |links|
    ensures forall i :: 0 <= i < |links| ==>
              r[i].notification == links[i].notification && r[i].user == links[i].user
              && (links[i].user == user ==> r[i].state == 'V')
              && (links[i].user != user ==> r[i].state == links[i].state)
  {
    seq(|links|, i requires 0 <= i < |links| => if links[i].user == user then links[i].(state := 'V') else links[i])
  }

  /** How `/news` settles the user of a session. */
  datatype Step =
    | Cached(user: Value)       // a truthy cached id, used without asking SESSION
    | Found(user: Value)        // the `id_user` of the session's SESSION row
    | Failed(resp: Response)    // SESSION failed or has no such session

  /**
   * The cache key of a session: the session id as it is, the empty one
   * included, or "undefined" when the request carries none (memory-cache
   * keys are object properties).
   */
  function SessionKey(session: Option<string>): string {
    if session.Some? then session.value else "undefined"
  }

  /**
   * The first half of `/news`: a truthy cached id is used as it is; otherwise
   * SESSION is asked. Both refusals are sent with `res.send`, so their HTTP
   * status is 200 and only the envelope carries 500 or 404.
   */
  function UserOf(cached: Value, session: Option<string>, sessions: map<string, Value>, sessionDown: bool): (step: Step)
    ensures Truthy(cached) <==> step.Cached?
    ensures step.Cached? ==> step.user == cached
    ensures !Truthy(cached) && sessionDown ==> step == Failed(Response(200, Resm(500, None)))
    ensures !Truthy(cached) && !sessionDown && (session.None? || session.value !in sessions) ==>
              step == Failed(Response(200, Resm(404, Some(BadSession))))
    ensures step.Found? <==> !Truthy(cached) && !sessionDown && session.Some? && session.value in sessions
    ensures step.Found? ==> step.user == sessions[session.value]
  {
    if Truthy(cached) then Cached(cached)
    else if sessionDown then Failed(Response(200, Resm(500, None)))
    else if session.None? || session.value !in sessions then Failed(Response(200, Resm(404, Some(BadSession))))
    else Found(sessions[session.value])
  }

  /** Line 60 as written: a found session is cached with the value read from the cache before, not the found id. */
  function RememberedAsWritten(cached: Value, step: Step): Option<Value> {
    if step.Found? then Some(cached) else None
  }

  /** What line 60 evidently means to cache: the id SESSION returned. */
  function Remembered(step: Step): (stored: Option<Value>)
    ensures stored.Some? <==> step.Found?
    ensures step.Found? ==> stored == Some(step.user)
  {
    if step.Found? then Some(step.user) else None
  }

  /** `/sendn`'s NOTIFICATIONS row. */
  function NotificationRow(id: int, message: string, image: string): Value {
    Obj(map["id" := Num(id as real), "message" := Str(message), "image_link" := Str(image), "type" := Str("P")])
  }

  class NotificationDb {
    /** NOTIFICATIONS by id, and the next auto-increment id. */
    var notifications: map<int, Value>
    var nextId: int
    /** NOTI_USER */
    var links: seq<Link>

    /** Every id in use is below the next one, and every link is new or seen. */
    predicate Valid()
      reads this
    {
      (forall k :: k in notifications ==> k < nextId)
      && (forall i :: 0 <= i < |links| ==> links[i].notification < nextId && links[i].state in {'N', 'V'})
    }

    constructor ()
      ensures notifications == map[] && links == [] && Valid()
    {
      notifications := map[];
      nextId := 1;
      links := [];
    }

    /**
     * `getNews(id_user)`: the user's unseen notifications are sent and then
     * marked seen unless that write fails (`markDown`); a failing read is sent
     * as a 200 carrying a 500 envelope.
     */
    method Read(user: Value, newsDown: bool, markDown: bool) returns (resp: Response)
      requires Valid()
      modifies this
      ensures Valid()
      ensures notifications == old(notifications) && nextId == old(nextId)
      ensures newsDown ==> resp == Response(200, Resm(500, None)) && links == old(links)
      ensures !newsDown ==> resp == Response(200, Json(Arr(Unseen(notifications, old(links), user))))
      ensures !newsDown ==> links == (if markDown then old(links) else MarkSeen(old(links), user))
    {
      if newsDown {
        return Response(200, Resm(500, None));
      }
      var rows := Unseen(notifications, links, user);
      if !markDown {
        links := MarkSeen(links, user);
      }
      resp := Response(200, Json(Arr(rows)));
    }

    /** GET /notifications/news as written: a session found in SESSION is cached with the stale value. */
    method NewsAsWritten(cache: MemCache, cookie: Option<string>, query: Option<string>, sessions: map<string, Value>,
                         sessionDown: bool, newsDown: bool, markDown: bool)
      returns (resp: Response, askedSession: bool)
      requires Valid()
      modifies this, cache
      ensures Valid()
      ensures notifications == old(notifications) && nextId == old(nextId)
      ensures var session := OrElse(cookie, query); var cached := old(cache.Get(SessionKey(session)));
              var step := UserOf(cached, session, sessions, sessionDown);
              askedSession == !Truthy(cached)
              && (step.Failed? ==> resp == step.resp && links == old(links))
              && (!step.Failed? && newsDown ==> resp == Response(200, Resm(500, None)) && links == old(links))
              && (!step.Failed? && !newsDown ==>
                    resp == Response(200, Json(Arr(Unseen(notifications, old(links), step.user))))
                    && links == (if markDown then old(links) else MarkSeen(old(links), step.user)))
              && Applied(cache, SessionKey(session), RememberedAsWritten(cached, step), SessionTtl)
    {
      var session := OrElse(cookie, query);
      var key := SessionKey(session);
      var idUser := cache.Get(key);
      var step := UserOf(idUser, session, sessions, sessionDown);
      askedSession := !Truthy(idUser);
      if step.Failed? {
        return step.resp, askedSession;
      }
      resp := Read(step.user, newsDown, markDown);
      if step.Found? {
        cache.Put(key, idUser, SessionTtl);
      }
    }

    /** GET /notifications/news with the found id cached. */
    method News(cache: MemCache, cookie: Option<string>, query: Option<string>, sessions: map<string, Value>,
                sessionDown: bool, newsDown: bool, markDown: bool)
      returns (resp: Response, askedSession: bool)
      requires Valid()
      modifies this, cache
      ensures Valid()
      ensures notifications == old(notifications) && nextId == old(nextId)
      ensures var session := OrElse(cookie, query); var cached := old(cache.Get(SessionKey(session)));
              var step := UserOf(cached, session, sessions, sessionDown);
              askedSession == !Truthy(cached)
              && (step.Failed? ==> resp == step.resp && links == old(links))
              && (!step.Failed? && newsDown ==> resp == Response(200, Resm(500, None)) && links == old(links))
              && (!step.Failed? && !newsDown ==>
                    resp == Response(200, Json(Arr(Unseen(notifications, old(links), step.user))))
                    && links == (if markDown then old(links) else MarkSeen(old(links), step.user)))
              && Applied(cache, SessionKey(session), Remembered(step), SessionTtl)
    {
      var session := OrElse(cookie, query);
      var key := SessionKey(session);
      var idUser := cache.Get(key);
      var step := UserOf(idUser, session, sessions, sessionDown);
      askedSession := !Truthy(idUser);
      if step.Failed? {
        return step.resp, askedSession;
      }
      resp := Read(step.user, newsDown, markDown);
      if step.Found? {
        cache.Put(key, step.user, SessionTtl);
      }
    }

    /**
     * POST /notifications/sendn: with the right token and a known email, one
     * new notification of type 'P' is stored and, unless that second write
     * fails (`linkDown`), linked to the user as new; the answer is 201.
     */
    method SendN(tokenParam: Option<string>, messageParam: Option<string>, imageParam: Option<string>,
                 emailParam: Option<string>, users: map<string, Value>, usersDown: bool, insertDown: bool, linkDown: bool)
      returns (resp: Response)
      requires Valid()
      modifies this
      ensures Valid()
      ensures OrText(tokenParam, "nt") != Token ==> resp == Status(401) && unchanged(this)
      ensures OrText(tokenParam, "nt") == Token && usersDown ==> resp == Status(500) && unchanged(this)
      ensures OrText(tokenParam, "nt") == Token && !usersDown && OrText(emailParam, "") !in users ==>
                resp == Status(404) && unchanged(this)
      ensures OrText(tokenParam, "nt") == Token && !usersDown && OrText(emailParam, "") in users && insertDown ==>
                resp == Status(500) && unchanged(this)
      ensures OrText(tokenParam, "nt") == Token && !usersDown && OrText(emailParam, "") in users && !insertDown ==>
                var id := old(nextId);
                resp == Status(201) && nextId == id + 1
                && notifications == old(notifications)[id := NotificationRow(id, OrText(messageParam, ""), OrText(imageParam, ""))]
                && links == old(links) + (if linkDown then [] else [Link(id, users[OrText(emailParam, "")], 'N')])
    {
      var token := OrText(tokenParam, "nt");
      if token != Token {
        return Status(401);
      }
      var message := OrText(messageParam, "");
      var image := OrText(imageParam, "");
      var email := OrText(emailParam, "");
      if usersDown {
        return Status(500);
      }
      if email !in users {
        return Status(404);
      }
      var user := users[email];
      // sendNotification(id_user)
      if insertDown {
        return Status(500);
      }
      var id := nextId;
      notifications := notifications[id := NotificationRow(id, message, image)];
      nextId := nextId + 1;
      if !linkDown {
        links := links + [Link(id, user, 'N')];
      }
      resp := Status(201);
    }
  }

  /** After `/news` has marked a user's links seen, the user has no unseen notification left. */
  lemma {:induction false} NothingUnseenAfterRead(notifications: map<int, Value>, links: seq<Link>, user: Value)
    ensures Unseen(notifications, MarkSeen(links, user), user) == []
  {
    if links != [] {
      assert MarkSeen(links, user)[1..] == MarkSeen(links[1..], user);
      NothingUnseenAfterRead(notifications, links[1..], user);
    }
  }

  /** Marking one user's links seen leaves every other user's unseen notifications as they were. */
  lemma {:induction false} OtherReadersUnaffected(notifications: map<int, Value>, links: seq<Link>, user: Value, other: Value)
    requires other != user
    ensures Unseen(notifications, MarkSeen(links, user), other) == Unseen(notifications, links, other)
  {
    if links != [] {
      assert MarkSeen(links, user)[1..] == MarkSeen(links[1..], user);
      OtherReadersUnaffected(notifications, links[1..], user, other);
    }
  }

  /**
   * A notification sent to a user is the one new item of their next `/news`:
   * the unseen list grows by exactly its row, at the end.
   */
  lemma {:induction false} SentIsNews(notifications: map<int, Value>, links: seq<Link>, id: int, row: Value, user: Value)
    requires forall k :: k in notifications ==> k < id
    requires forall i :: 0 <= i < |links| ==> links[i].notification < id
    ensures Unseen(notifications[id := row], links + [Link(id, user, 'N')], user) == Unseen(notifications, links, user) + [row]
  {
    if links == [] {
      assert [Link(id, user, 'N')][1..] == [];
    } else {
      assert (links + [Link(id, user, 'N')])[1..] == links[1..] + [Link(id, user, 'N')];
      SentIsNews(notifications, links[1..], id, row, user);
      assert links[0].notification < id;
    }
  }

  /**
   * An empty cookie falls through to the query parameter even when that is
   * empty too: the empty session id is the cache key and is looked up in SESSION.
   */
  lemma EmptySessionLookedUp(cookie: Option<string>, sessions: map<string, Value>)
    requires cookie.None? || cookie.value == ""
    ensures var session := OrElse(cookie, Some(""));
            SessionKey(session) == ""
            && ("" in sessions ==> UserOf(Null, session, sessions, false) == Found(sessions[""]))
            && ("" !in sessions ==> UserOf(Null, session, sessions, false) == Failed(Response(200, Resm(404, Some(BadSession)))))
  {
  }

  /**
   * As written, a session resolved through SESSION is cached with the falsy
   * value read before, so the same session is looked up in SESSION again on
   * its next request, however soon.
   */
  lemma StaleSessionAsWritten(entries: map<string, Entry>, now: int, session: string, sessions: map<string, Value>,
                              elapsed: nat)
    requires !Truthy(Lookup(entries, now, session))
    requires session in sessions
    ensures var cached := Lookup(entries, now, session);
            var step := UserOf(cached, Some(session), sessions, false);
            step.Found?
            && !Truthy(Lookup(Stored(entries, session, RememberedAsWritten(cached, step), now, SessionTtl), now + elapsed, session))
  {
    var cached := Lookup(entries, now, session);
    PutThenGet(entries, now, session, cached, SessionTtl, elapsed, session + "'");
  }

  /** A concrete instance: a fresh cache and a session of user 7 is asked for twice at the same instant. */
  lemma StaleSessionExample()
    ensures var sessions := map["s1" := Num(7.0)];
            var first := UserOf(Lookup(map[], 0, "s1"), Some("s1"), sessions, false);
            var entries := Stored(map[], "s1", RememberedAsWritten(Lookup(map[], 0, "s1"), first), 0, SessionTtl);
            first == Found(Num(7.0))
            && Lookup(entries, 0, "s1") == Null
            && UserOf(Lookup(entries, 0, "s1"), Some("s1"), sessions, false) == Found(Num(7.0))
  {
  }

  /**
   * With the found id cached, a session whose user id is truthy is answered
   * from the cache for the next 30 seconds, without SESSION being asked.
   */
  lemma SessionRemembered(entries: map<string, Entry>, now: int, session: string, sessions: map<string, Value>,
                          sessionDown2: bool, sessions2: map<string, Value>, elapsed: nat)
    requires !Truthy(Lookup(entries, now, session))
    requires session in sessions && Truthy(sessions[session])
    requires elapsed <= SessionTtl
    ensures var step := UserOf(Lookup(entries, now, session), Some(session), sessions, false);
            var later := Lookup(Stored(entries, session, Remembered(step), now, SessionTtl), now + elapsed, session);
            UserOf(later, Some(session), sessions2, sessionDown2) == Cached(sessions[session])
  {
    PutThenGet(entries, now, session, sessions[session], SessionTtl, elapsed, session + "'");
  }
}
