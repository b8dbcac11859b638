# BotikApp API — a Dafny model of its request handlers

BotikApp is a REST API for a pharmacy catalogue. It is an Express application
over MySQL. The model covers the following parts of it.

- The catalogue routers: pharmacies, products, laboratories, sanitary
  registrations, presentations, presentation types, staff and the ubigeo
  region tree. Each GET handler is cache-aside over one process-wide
  `memory-cache`. Each write route answers 405.
- The search router: the minimum price of a product, two kinds of keyword
  suggestions, and the pharmacies near a point, nearest first.
- The user-facing routers:
  - favourites, behind a session resolver that asks an accounts service;
  - the Android registration;
  - notifications, with a session cache and a fire-and-forget "mark seen" write.
- `resM`, the response envelope, and `formatReminder`, which turns a
  reminder row into the object the API sends.

How the program's world is represented:

- **JavaScript values** are one datatype, `Js.Value`. JavaScript truthiness,
  `||`, property access, `parseInt` and number-to-text conversion are
  written out once, in module `Js`.
- **The database** is a function from a parameterised query to its result
  (`Query -> DbResult`), or a flag that says a statement fails.
- **Handlers** return the queries they issued, in order. "A cache hit touches
  no table" can then be stated as `issued == []`.
- **The shared cache** is the class `Cache.MemCache`. Its logical clock moves
  only through `Advance`.
- **Tables that the handlers write** are fields of classes:
  `Favorite.FavoriteTable`, `Android.AndroidTable` and
  `Notifications.NotificationDb`.
- **Every cached GET route** is specified by a pure function on the cache
  content. `CacheAside.ReadThrough` serves the common case, and the routes with
  extra stages have their own function (`Laboratory.ProductsOf`,
  `Ubigeo.Lookup`, `Search.Price`, `Search.Suggest2`). The handler method
  ensures that its response, its queries and the new cache state are those of
  that function (`CacheAside.Did`).

## Model

| member | source | states |
|---|---|---|
| ResponseManager.Envelope | tools/response-manager.js:8-22 | codes from 300 up give exactly `{error, code}` with the code; lower codes give exactly `{message}`; the text is the message, else the listed text, else "Error." or "Ok" |
| ResponseManager.StatusEnvelope | tools/response-manager.js:10-14 | every `resM(c)` sent with status c >= 300 carries c as its code and a string error |
| ResponseManager.NotAllowed | routes/medicine/pharmacy.js:421-459 | the write routes answer status 405 with the error envelope of code 405 (the same handlers close product.js, laboratory.js, reg_san.js, presentation.js, presentation_type.js and ubigeo.js) |
| Js.FirstText | routes/medicine/favorite.js:13 | a result is a present, non-empty candidate; None only when every candidate is absent or empty |
| Js.FirstTextIsFirst | routes/medicine/favorite.js:13 | the result is the first present, non-empty candidate: every candidate before it is absent or empty |
| Js.CookieFirst | routes/medicine/favorite.js:13 | the cookie wins over the query when both are given; an empty cookie falls through to the query |
| Js.OrElseIsOr | routes/medicine/notifications.js:29 | `cookie || query` on two optional strings is JavaScript's `||`: the cookie when non-empty, otherwise the query value as it is, empty included |
| Js.Length | routes/medicine/search.js:47 | `s.length` counts UTF-16 code units: at least the number of characters and at most twice it |
| Js.PlaneLength | routes/medicine/search.js:47 | text in the Basic Multilingual Plane has one code unit per character |
| Js.AstralLength | routes/medicine/android.js:63-77 | a character above U+FFFF counts twice, so five emoji have length 10 |
| Js.Magnitude | routes/medicine/ubigeo.js:34 | after the sign, `0x`/`0X` selects base 16, otherwise base 10; NaN exactly when the digit run is empty |
| Js.ParseInt | routes/medicine/ubigeo.js:34 | `parseInt` without a radix is NaN exactly when no digit of the base its prefix selects follows the optional sign; a result is negative only after a minus sign |
| Js.HexPrefixRead | routes/medicine/search.js:38 | `0x1F` reads as 31 and `-0X1f` as -31 |
| Js.HexPrefixEmpty | routes/medicine/ubigeo.js:34 | a bare `0x`, or one followed by a non-hex character, is NaN |
| Js.DecimalRead | routes/medicine/ubigeo.js:34 | without the prefix the digits are decimal (`010` is 10), trailing text is ignored, a lone sign is NaN |
| Js.ParseIntText | routes/medicine/ubigeo.js:34-35 | `parseInt` reads back every integer from its decimal text, so the key text and the parsed code agree |
| Cache.Lookup | routes/medicine/pharmacy.js:64-68 | a missing or expired entry reads as null, a miss |
| Cache.PutThenGet | routes/medicine/pharmacy.js:89 | a value put with time-to-live t reads back unchanged for exactly t ms and is a miss afterwards; other keys are unaffected |
| Cache.MemCache.Put | routes/medicine/pharmacy.js:89 | the entry under the key is replaced, expiring ttl ms from now; nothing else changes |
| Cache.MemCache.Advance | routes/medicine/pharmacy.js:7 | time passes; every entry past its expiry reads as a miss |
| CacheAside.Present | routes/medicine/product.js:90-124 | raw rows are sent as they are; nested shapes have one reshaped object per row, in row order; First sends rows[0] |
| CacheAside.ReadThrough | routes/medicine/pharmacy.js:63-91 | a hit answers 200 with the cached value and issues no query; a miss issues exactly the route's query; a DB error gives 500; an empty result on a not-found route gives 404; a value is stored exactly when a miss succeeds, and what is stored is what is sent |
| CacheAside.Serve | routes/medicine/pharmacy.js:63-91 | the handler's response, queries and new cache entries are those of ReadThrough on the old cache content |
| CacheAside.RepeatHits | routes/medicine/pharmacy.js:64-90 | after a successful miss, the same request within the TTL gets the same response and issues no query, whatever the DB holds by then; after expiry it queries again; every stored value except a First row is truthy |
| CacheAside.FailuresRetry | routes/medicine/pharmacy.js:81-87 | a failed or not-found request leaves the cache as it was, and the next identical request queries again |
| Pagination.Start | routes/medicine/pharmacy.js:53-54 | start is the parsed value when it is positive, otherwise 0 (NaN and 0 included) |
| Pagination.Size | routes/medicine/pharmacy.js:55-57 | size is always within [1, 100]; NaN or 0 gives 10; negative values give 1; values above 100 give 100; values in range are kept |
| Pagination.Clamp | routes/medicine/product.js:56-61 | the window is valid and made of Start and Size |
| Pagination.WindowTextInjective | routes/medicine/pharmacy.js:63 | the `start=..&size=..` tail of a key splits off in one way only |
| Keys.PageKeyInjective | routes/medicine/product.js:63 | two list requests share a cache entry iff their clamped windows are equal |
| Keys.ItemKeyInjective | routes/medicine/product.js:176 | two item requests share a cache entry iff their ids are equal |
| Keys.ProductsKeyInjective | routes/medicine/laboratory.js:227 | two product-page requests share an entry iff parent id and window are both equal |
| Reshape.ShapeKeys | routes/medicine/product.js:90-121 | the nested product has exactly the ten product keys, plus `tipo` iff the router copies it |
| Reshape.KeptField | routes/medicine/product.js:90-121 | copying `tipo` leaves the ten shared keys as they were |
| Reshape.ShapeNameFields | routes/medicine/product.js:90-121 | id, nombre and concentracion are the row's idP, nombreP and concent columns |
| Reshape.ShapeStockFields | routes/medicine/product.js:90-121 | fracciones, estado and, when copied, tipo are the row's columns of the same name |
| Reshape.ShapeTypeFields | routes/medicine/product.js:90-121 | tipo_presentacion becomes `{id, descripcion}` from idTP and desTP |
| Reshape.ShapeSimpleTypeFields | routes/medicine/product.js:90-121 | tipo_presentacion_simple becomes `{id, descripcion}` from idTP2 and desTP2 |
| Reshape.ShapeRegistrationFields | routes/medicine/product.js:90-121 | registro_sanitario becomes `{id, codigo, vencimiento}` from its columns |
| Reshape.ShapeLaboratoryFields | routes/medicine/product.js:90-121 | laboratorio becomes `{id, nombre}` from idLAB and nombreLAB |
| Reshape.ShapePresentationFields | routes/medicine/product.js:90-121 | presentacion becomes `{id, descripcion}` from idPRE and desPRE |
| Reshape.ShapeIsLossless | routes/medicine/product.js:90-121 | flattening the nested object gives back every column the reshaping reads |
| Reshape.ShapeRows | routes/medicine/product.js:90-121 | the loop pushes one reshaped object per row, in row order |
| Pharmacy.ListQuery | routes/medicine/pharmacy.js:69-80 | params are `[start, size]`, or `[len, ubigeo, start, size]` when a region prefix is given, `len` being its UTF-16 length |
| Pharmacy.ItemKeyAsWritten | routes/medicine/pharmacy.js:141 | the pharmacy key is "undefined/" + id, because the property `basUrl` does not exist |
| Pharmacy.List | routes/medicine/pharmacy.js:52-91 | a ubigeo of odd UTF-16 length answers 401 and touches neither the cache nor the DB; otherwise the cache-aside read of the active-pharmacy page, where an empty page is 200 |
| Pharmacy.Item | routes/medicine/pharmacy.js:136-164 | the cache-aside read of one pharmacy under the "undefined/" key; none found gives 404 |
| Pharmacy.Products | routes/medicine/pharmacy.js:218-267 | the cache-aside read of a pharmacy's product page; none found gives 404 |
| Pharmacy.ProductOf | routes/medicine/pharmacy.js:317-358 | the cache-aside read of one product at one pharmacy; none found gives 404 |
| Pharmacy.Personal | routes/medicine/pharmacy.js:385-413 | the cache-aside read of a pharmacy's staff; none found gives 404 |
| Pharmacy.ListKeyInjective | routes/medicine/pharmacy.js:63 | two list requests share an entry iff region code and window are equal |
| Product.List | routes/medicine/product.js:55-126 | the cache-aside read of a product page, reshaped with `tipo`; an empty page is 200 and cached |
| Product.Item | routes/medicine/product.js:173-244 | the cache-aside read of a product, reshaped with `tipo`; none found gives 404 |
| Product.ItemSendsShapedRows | routes/medicine/product.js:173-244 | on a miss the product is 404 iff no row; otherwise one object per row, each with `tipo`, each giving back its columns |
| Laboratory.List | routes/medicine/laboratory.js:36-63 | the cache-aside read of a laboratory page |
| Laboratory.Item | routes/medicine/laboratory.js:91-118 | the cache-aside read of one laboratory; none found gives 404 |
| Laboratory.ProductsOf | routes/medicine/laboratory.js:216-308 | a hit is served from the cache; otherwise an unknown laboratory gives 404 (a failure gives 500) and the product query is never issued; a known one continues as a read of its product page |
| Laboratory.Products | routes/medicine/laboratory.js:216-308 | response, queries and cache state are those of ProductsOf on the old cache content |
| Laboratory.ProductsAreShaped | routes/medicine/laboratory.js:262-305 | for a known laboratory the answer is 404 iff it has no products; otherwise one object per row without `tipo`, each giving back its columns |
| RegSan.List | routes/medicine/reg_san.js:37-64 | the cache-aside read of a registration page |
| RegSan.Item | routes/medicine/reg_san.js:93-119 | the cache-aside read of one registration; none found gives 404 |
| RegSan.Products | routes/medicine/reg_san.js:173-249 | the cache-aside read of the products with a registration, reshaped without `tipo` |
| RegSan.ProductsAreShaped | routes/medicine/reg_san.js:173-249 | no products gives 404 and stores nothing; otherwise one object per row without `tipo`, each giving back its columns |
| Presentation.List | routes/medicine/presentation.js:36-63 | the cache-aside read of a presentation page |
| Presentation.Item | routes/medicine/presentation.js:91-117 | the cache-aside read of one presentation; none found gives 404 |
| PresentationType.List | routes/medicine/presentation_type.js:36-63 | the cache-aside read of a presentation-type page |
| PresentationType.Item | routes/medicine/presentation_type.js:91-117 | the cache-aside read of one presentation type; none found gives 404 |
| Personal.List | routes/medicine/personal.js:40-67 | the cache-aside read of a staff page |
| Ubigeo.Roots | routes/medicine/ubigeo.js:43 | a subsequence of the table holding every place with id below 100 exactly as often as the table does, and nothing else |
| Ubigeo.WithId | routes/medicine/ubigeo.js:52 | a subsequence of the table holding every place with the given id as often as the table does; a NaN id matches none |
| Ubigeo.Children | routes/medicine/ubigeo.js:62 | a subsequence of the table holding every place whose parent is the given id as often as the table does |
| Ubigeo.Lookup | routes/medicine/ubigeo.js:33-73 | code 0 lists the roots; an unknown code gives 404, stores nothing and never asks for children; a known one lists its children; each failure gives 500; a hit issues nothing |
| Ubigeo.List | routes/medicine/ubigeo.js:33-73 | response, queries and cache state are those of Lookup on the old cache content |
| Ubigeo.MissingCodeIsZero | routes/medicine/ubigeo.js:34-35 | no or an empty `ubigeo` means code 0, under the key "?ubigeo=0" |
| Nearby.Defaults | routes/medicine/search.js:254-258 | NaN or 0 parameters take the defaults 500000, -12.045909, -77.03051 and 5; any other product, lat, lng or positive radius is kept; a negative radius becomes 0 |
| Nearby.DefaultProductRefused | routes/medicine/search.js:254-264 | without a usable product id the default 500000 is refused by the parameter limits |
| Nearby.Near | routes/medicine/search.js:289-297 | every kept hit is within the radius; there are no more hits than rows |
| Nearby.NearExact | routes/medicine/search.js:289-297 | a hit is kept iff it is a row's hit and within the radius |
| Nearby.KeepNear | routes/medicine/search.js:289-297 | the loop keeps exactly Near of the rows |
| Nearby.Insert | routes/medicine/search.js:298-300 | inserting into a distance-sorted list keeps it sorted and adds exactly that hit |
| Nearby.SortByDistance | routes/medicine/search.js:298-300 | the result is sorted by ascending distance and is a permutation of its input |
| Nearby.Objects | routes/medicine/search.js:302-310 | one `{id, lat, lng, distance}` object per hit, in order |
| Nearby.ToObjects | routes/medicine/search.js:302-310 | the loop builds exactly Objects of the sorted hits |
| Nearby.Pharmacies | routes/medicine/search.js:253-313 | out-of-limit parameters give 400 with no query; otherwise one query; an error gives 500; else the hits within the radius, nearest first |
| Nearby.ResultIsNearestFirst | routes/medicine/search.js:289-311 | the answer is sorted by distance, holds only rows within the radius, and holds every row within the radius |
| Search.PriceQuery | routes/medicine/search.js:46-59 | params are `[id]`, then `[len, ubigeo]` when a region prefix is given, `len` being its UTF-16 length |
| Search.Price | routes/medicine/search.js:37-73 | a hit is served before the region check; a miss with a ubigeo of odd UTF-16 length gives 400 with no query; otherwise a read where no row gives 404; only rows[0] is ever stored |
| Search.PrecioMinimo | routes/medicine/search.js:37-73 | response, queries and cache state are those of Price on the old cache content |
| Search.Suggestions | routes/medicine/search.js:100-125 | no keyword gives 400 with no query; otherwise exactly one query on the clamped window; its rows or 500; nothing is cached |
| Search.Size2 | routes/medicine/search.js:164-167 | NaN stays NaN; a number is clamped to [1, 100]: up to 1 gives 1, 1 to 100 is kept, from 100 up gives 100 |
| Search.Column | routes/medicine/search.js:185 | the named column of every row, in row order |
| Search.CollectColumn | routes/medicine/search.js:185 | the loop builds exactly Column |
| Search.Chain | routes/medicine/search.js:174-224 | one to four stages are queried; the last stage failed iff the answer is 500 iff nothing is stored; an early stage with no rows stores and sends []; the fourth stage's rows are stored and sent; what is stored is an array |
| Search.Suggest2 | routes/medicine/search.js:152-225 | no keyword gives 400; a keyword shorter than 3 UTF-16 code units gives 200 [] before the cache is consulted; a hit is served; a miss runs Chain on keyword + '%' |
| Search.RunChain | routes/medicine/search.js:174-224 | response, queries and cache state are those of Chain |
| Search.Suggestions2 | routes/medicine/search.js:152-225 | short or missing keywords leave the cache unchanged; otherwise response, queries and cache state are those of Suggest2 |
| Search.Suggestions2Remembered | routes/medicine/search.js:169-220 | a stored answer, even [], answers the same request for the next minute with no query |
| Favorite.Resolution | routes/medicine/favorite.js:12-48 | no session gives 401; a truthy cached user proceeds without asking; otherwise the service is asked once; non-200 gives 401 and caches "none"; 200 proceeds as its `id_user` and caches it |
| Favorite.Resolve | routes/medicine/favorite.js:12-48 | outcome, services asked and new cache state are those of Resolution |
| Favorite.SentinelBranchDead | routes/medicine/favorite.js:20-27 | any value loosely equal to 'none' is truthy, so the `'none'` refusal is never reached |
| Favorite.RefusedSessionProceeds | routes/medicine/favorite.js:29-33 | a refused session is cached as "none" and, within the minute, proceeds as user "none" without the service being asked |
| Favorite.ProductsOf | routes/medicine/favorite.js:96-103 | exactly the products of the user's rows |
| Favorite.Without | routes/medicine/favorite.js:197-207 | exactly the rows other than the pair; an absent pair leaves the table as it was; otherwise one row fewer; no duplicates is kept |
| Favorite.FavoriteTable.List | routes/medicine/favorite.js:83-105 | 500 on failure, else 200 with the user's products |
| Favorite.FavoriteTable.Add | routes/medicine/favorite.js:136-157 | a falsy product gives 400 with its message; a failure gives 500; an existing pair gives 409 with its message; otherwise the pair is appended and 200 is sent; the table never holds duplicates |
| Favorite.FavoriteTable.Remove | routes/medicine/favorite.js:189-265 | a falsy product gives 400; a failure gives 500; an absent pair gives 404 with its message; otherwise the pair is removed and 200 is sent; DELETE /favorite and POST /favorite/delete behave alike |
| Favorite.RemoveUndoesAdd | routes/medicine/favorite.js:197 | deleting a pair just inserted gives back the table as it was |
| Favorite.ListedIffStored | routes/medicine/favorite.js:96 | a product is listed for a user iff their pair is in the table |
| Favorite.OtherUsersUnaffected | routes/medicine/favorite.js:96 | adding or deleting one user's pair leaves another user's list unchanged |
| Android.Check | routes/medicine/android.js:63-77 | a request passes iff the validator accepts the email, the email has at most 50 UTF-16 code units and the phone 9 to 15; the first failing check picks the message |
| Android.AndroidTable.Register | routes/medicine/android.js:34-79 | a validation failure gives 400 with its message; a failing lookup gives 500; a taken email gives 400 "Email ya existe"; a failing insert gives 500; otherwise the row is appended with 200; emails stay unique |
| Notifications.Unseen | routes/medicine/notifications.js:33-37 | exactly the notifications linked to the user as new |
| Notifications.MarkSeen | routes/medicine/notifications.js:43 | every link of the user becomes seen; every other link is unchanged |
| Notifications.UserOf | routes/medicine/notifications.js:48-57 | a truthy cached id is used; otherwise SESSION failing or not knowing the session is refused, with HTTP status 200 and a 500 or 404 envelope; else its `id_user` |
| Notifications.Remembered | routes/medicine/notifications.js:59-60 | the id found in SESSION is cached, and only then |
| Notifications.NotificationDb.Read | routes/medicine/notifications.js:32-46 | the user's unseen notifications are sent and then marked seen, unless the update fails; a failing read sends a 500 envelope with status 200 |
| Notifications.NotificationDb.NewsAsWritten | routes/medicine/notifications.js:28-69 | the session is `cookie || query`; as Read after UserOf, caching the value read from the cache before |
| Notifications.NotificationDb.News | routes/medicine/notifications.js:28-69 | the session is `cookie || query`; as Read after UserOf, caching the id SESSION returned |
| Notifications.EmptySessionLookedUp | routes/medicine/notifications.js:29-30 | an empty or missing cookie with an empty query gives the empty session id: it is the cache key and is looked up in SESSION |
| Notifications.NotificationDb.SendN | routes/medicine/notifications.js:91-130 | a wrong token gives 401; failures give 500; an unknown email gives 404; all three leave the tables unchanged; otherwise one new 'P' notification with a fresh id, linked as new to the user unless that write fails, and 201 |
| Notifications.NothingUnseenAfterRead | routes/medicine/notifications.js:33-44 | after the update the user has no unseen notification |
| Notifications.OtherReadersUnaffected | routes/medicine/notifications.js:43 | marking one user's links leaves every other user's unseen list unchanged |
| Notifications.SentIsNews | routes/medicine/notifications.js:102-114 | a sent notification is appended to exactly its user's unseen list |
| Notifications.StaleSessionAsWritten | routes/medicine/notifications.js:59-60 | as written, a session found in SESSION is still a cache miss on its next request, however soon |
| Notifications.StaleSessionExample | routes/medicine/notifications.js:59-60 | session "s1" of user 7, asked twice at the same instant, is looked up in SESSION both times |
| Notifications.SessionRemembered | routes/medicine/notifications.js:59-60 | with the found id cached, a session with a truthy id is served from the cache for 30 s |
| Reminder.WeekdayMap | models/reminder.js:58-61 | the loop builds exactly the map of d0..d6 |
| Reminder.DaysShape | models/reminder.js:59-61 | after k rounds the map has exactly the keys d0..d(k-1), each "enabled" iff its bit is set |
| Reminder.DayKeyInjective | models/reminder.js:60 | the seven day keys are distinct |
| Reminder.MaskOf | models/reminder.js:59-61 | reading back the first k days gives a number below 2^k |
| Reminder.MaskPrefix | models/reminder.js:59-61 | reading back the first k days gives the mask modulo 2^k |
| Reminder.DayMaskRoundTrip | models/reminder.js:55-63 | the weekday map gives back `day_filter` modulo 128, negative masks included; it has exactly the keys d0..d6 |
| Reminder.CollectFilters | models/reminder.js:46-63 | a filter list exists iff a positive cycle day or a non-127 `day_filter` is present; the cycle entry comes first, then the weekday map |
| Reminder.FormatReminder | models/reminder.js:25-66 | the five columns are copied; repeat type and hourly columns appear iff `repeat_type` is 'H'; no other field; filters as CollectFilters |

## Left out

- I/O is not modelled: the HTTP server, cookies, the body parser, `console.log`
  and the callback interleaving of concurrent requests. Each handler runs to
  completion on its own.
- The SQL text is modelled only partly. Each query is a label plus its
  bound parameters, and the database is an input function. `LIKE`, joins,
  `min`, `limit`, collation and loose equality of ids are not modelled. The
  ubigeo, favourites, Android and notifications tables are modelled as
  sequences, under the comparisons their handlers rely on.
- `parseInt` and `parseFloat` results arrive as `Option<int>` / `Option<real>`
  (None is NaN). Only `ParseInt` on the ubigeo and price parameters is written
  out.
- Js.ParseInt: leading whitespace is not skipped.
- Js.ParseIntText: integers are unbounded. JavaScript numbers are doubles,
  so `parseInt` loses precision above 2^53, and `'' + n` prints exponent
  text from 1e21 up. `Js.NatText`, `Js.IntText` and `Js.NumberText` print
  every integer in plain decimal, so the ubigeo, price and page keys agree
  with the source only below those bounds.
- JSON objects are maps (`Js.Value.Obj`). The order of their keys is not
  modelled, so the key order of a sent object, such as the reminder's
  `id … filters` or a reshaped product, is not captured.
- The haversine distance is an input function of the search, so the model
  does not compute it. Floating-point rounding and NaN distances are not
  modelled.
- `Array.prototype.sort` is modelled as a stable sort on a sequence,
  `Nearby.SortByDistance`. It is not an in-place sort.
- The accounts service of the favourites resolver and the `email-validator`
  package are input functions.
- `response_list.json` is a parameter, `resList`, of the envelope.
- `toString_` in the Android router is the identity on the text parameters.
  Non-string body values are not modelled.
- The auto-increment id of ANDROID rows is not modelled. The notification id
  is `nextId`.
- Email uniqueness is exact string equality. MySQL's case-insensitive
  collation is not modelled.
- The unused `start` and `size` of GET /favorite are not modelled. They are
  bound to a statement with one placeholder.
- Reminder.IntOf: only numbers (truncated) and booleans have bits. A numeric
  string `day_filter` reads as 0 rather than as its number.
- Reminder.HasCycle: a positive number or `true` counts as a cycle day. A
  numeric string does not.
- Favorite.LooselyEqualsNone: nested single-element arrays are not
  unwrapped.
- The order of the notifications join is the order of the NOTI_USER links.
- `models/reminder.js` other than `formatReminder` is not part of this model.
  The routes/medicine/donations.js router is not part of this model either.

## Findings

| source | as written | input that shows it | evidently intended | confidence | as-written member | corrected member |
|---|---|---|---|---|---|---|
| routes/medicine/notifications.js:59-60 | after a session is found in SESSION, the value read from the cache at line 30 (null or another falsy value) is cached, not `rows[0].id_user` | a fresh cache and session "s1" of user 7: two requests at the same instant both query SESSION | cache the found `id_user`, so the session is served from the cache for 30 s | not executed | Notifications.StaleSessionAsWritten | Notifications.SessionRemembered |
