# Online shop: a verified model of the server controllers and client stores

This project models the decision and update rules of a small online shop.
The server is written with Express and Sequelize. The React client keeps its
session state in MobX stores. The model covers:

- the tables of `server/models/models.js`. They live in one store class,
  `Shop.ShopStore`, with one table field per model. Each table maps integer
  autoIncrement keys to rows. The uniqueness, ownership and status rules of
  the schema and its associations are the invariant `Valid()`. Three keys
  are not constrained: a device's type and brand, and an order line's
  device. Their `ON DELETE SET NULL` is modelled as a key left pointing at
  a deleted row (see "Left out"). Column widths are not modelled either;
- every action of the basket, order, rating, user, device, type and brand
  controllers, as a method on that store. Each method checks its guards in
  the controller's order. It answers `Ok(status, body)` or
  `Err(kind, message)`, and states the whole new state of every table it may
  change;
- `RoleCheckMiddleware`, `ApiError` and `ErrorHandlingMiddleware`, as pure
  functions, and `AuthMiddleware` as a decision function plus the method
  `Request.Authenticate`, which sets `req.user`;
- the client stores `BasketStore`, `OrderStore`, `UserStore` and
  `DeviceStore`, as classes whose methods update their fields.

Controllers report the error kind they *ask* for: `ApiError.badRequest`,
`notFound`, `unauthorized`, `forbidden` or `internal`. `ApiError.js` defines
only three of those factories, and its `badRequest` builds status 404.
`ApiErrors.PassedToNext` and `ErrorHandling.Handle` work out what the client
actually receives. A call to a missing factory throws a TypeError, and the
controller's own catch block turns that into its internal error (status 500).
One path differs: when deviceController.create finds no type or brand, it has
already deleted the upload before calling the missing `notFound`; its catch
block deletes the same file again, that `fs.unlink` rejects, and the request
is never answered (`CreateRejection`).

The libraries are not modelled; callers pass them in as function parameters:

- bcrypt becomes `hash` and `compare`;
- `jsonwebtoken` becomes `sign` and `verify`.

Other modelling conventions:

- A request field is a `NumArg` or a `TextArg`. They record the JavaScript
  tests the controllers apply: truthiness, `isNaN`, `parseInt`, `typeof` and
  `trim`.
- `req.user` is an `Option<Claims>`. None stands for the anonymous request
  that AuthMiddleware lets through. On such a request `req.user.id` throws,
  and the action ends in its catch block.
- Row order:
  - `findOne` returns the matching row with the lowest key;
  - `createdAt DESC` is decreasing key order. For orders, keys and creation
    times grow together (invariant `OrdersChronological`). Basket lines are
    inserted only by `AddDevice`, one at a time, so their keys follow
    insertion order; their creation times are not modelled, since the
    clock is left out;
  - an unordered `findAll` is increasing key order.

## Model

| member | source | states |
|---|---|---|
| Tables.Empty | server/models/models.js:4-66 | a new table has no rows, and its next key is 1 |
| Tables.InsertIsFresh | server/models/models.js:4-66 | an insert gives the new row a key no row had, keeps every other row, and keeps every key below `next` |
| Tables.FirstKey | server/controllers/basketController.js:21-35 | `findOne`: the lowest key whose row matches; no lower key matches; None only when no row matches |
| Tables.KeysAsc | server/controllers/deviceController.js:186-195 | the keys of the matching rows, each exactly once, in increasing order |
| Tables.KeysDesc | server/controllers/orderController.js:12-22 | the keys of the matching rows, each exactly once, in decreasing order (newest first) |
| Tables.NoKeysIff | server/controllers/basketController.js:180-183 | the list of matching keys is empty exactly when no row matches |
| Tables.Without | server/controllers/deviceController.js:344-350 | `destroy({ where })`: exactly the rows that do not match remain, unchanged |
| Tables.Page | server/controllers/deviceController.js:182-195 | `findAll({ limit, offset })`: at most `limit` rows, taken in order from position `offset`; exactly `limit` rows when there are enough; non-empty when the offset is inside the list; a short last page holds exactly the rows left; an offset past the end gives no rows |
| Tables.RowOnItsPage | server/controllers/deviceController.js:182 | with offset (page - 1) * limit, the row at position i is row i % limit of page i / limit + 1 |
| Tables.ConsecutivePages | server/controllers/deviceController.js:182 | two consecutive pages of `limit` rows make one page of 2 * limit rows |
| ApiErrors.Call | server/error/ApiError.js:2-19 | a factory call gives an ApiError exactly when the factory exists; that error carries the given message and the factory's status |
| ApiErrors.PassedToNext | server/error/ApiError.js:8-19 | `next` gets the factory's ApiError when the factory exists, otherwise the controller's internal error with status 500 |
| ApiErrors.OnlyThreeFactories | server/error/ApiError.js:8-19 | only badRequest, internal and forbidden exist, and their statuses differ |
| ApiErrors.ControllerStatuses | server/error/ApiError.js:8-19 | a controller error ends with 404 for bad request, 403 for forbidden and 500 otherwise; not-found and unauthorized also carry the catch block's message |
| ErrorHandling.Handle | server/middleware/ErrorHandlingMiddleware.js:17-35 | an ApiError is answered with its own status and message and no details; any other error gets 500 'Internal Server Error'; details appear exactly when NODE_ENV is 'development' |
| ErrorHandling.ControllerErrorResponse | server/middleware/ErrorHandlingMiddleware.js:17-25 | a controller's error reaches the client as 404, 403 or 500, according to the kind it asked for, and never carries details |
| ErrorHandling.UnauthorizedOutsideControllerIs500 | server/middleware/AuthMiddleware.js:37-41 | a token that fails verification is answered 500 'Internal Server Error', not 401 |
| AuthMiddleware.SplitSpace | server/middleware/AuthMiddleware.js:14 | `split(' ')` always yields at least one piece |
| AuthMiddleware.BearerToken | server/middleware/AuthMiddleware.js:14 | a token, when there is one, is non-empty text without spaces taken from a header that is present |
| AuthMiddleware.SplitWord | server/middleware/AuthMiddleware.js:14 | text without a space splits into itself |
| AuthMiddleware.SplitAfterWord | server/middleware/AuthMiddleware.js:14 | a word, a space and the rest split into that word followed by the pieces of the rest |
| AuthMiddleware.TokenAfterAnyScheme | server/middleware/AuthMiddleware.js:14 | the token is the text between the first and second spaces, whatever the scheme word is |
| AuthMiddleware.SchemeIsNotChecked | server/middleware/AuthMiddleware.js:14 | two headers that differ only in their scheme word give the same token |
| AuthMiddleware.NoSpaceNoToken | server/middleware/AuthMiddleware.js:14-26 | a header without a space carries no token |
| AuthMiddleware.Decide | server/middleware/AuthMiddleware.js:8-41 | a preflight exactly for OPTIONS; authenticated only with the claims the verifier returns for the header's token; rejected only when that token fails verification |
| AuthMiddleware.DecisionCases | server/middleware/AuthMiddleware.js:8-41 | OPTIONS passes whatever the header; a missing header or missing token gives an anonymous request; a verified token attaches its claims; a token that fails verification never proceeds |
| AuthMiddleware.Request.constructor | server/middleware/AuthMiddleware.js:6 | a request starts with no user |
| AuthMiddleware.Request.Authenticate | server/middleware/AuthMiddleware.js:6-41 | sets `req.user` only as the decision says: claims, null or unchanged; proceeds unless the token was rejected, and a rejection is a non-ApiError |
| RoleCheck.Gate | server/middleware/RoleCheckMiddleware.js:8-20 | passes only a user whose role is non-empty and listed; a refusal is the forbidden ApiError naming the allowed roles |
| RoleCheck.GateCases | server/middleware/RoleCheckMiddleware.js:8-20 | a request passes exactly when its user has a non-empty role in the list; otherwise it gets 403 with the roles joined by ", "; a missing user is always refused |
| RoleCheck.GateMonotone | server/middleware/RoleCheckMiddleware.js:14 | a role that passes for a list passes for every longer list that contains it |
| EmailFormat.PatternIsWellFormedAddress | server/controllers/userController.js:34-37 | the registration e-mail pattern accepts exactly the addresses with no white space, one '@' not in first place, and after it a '.' that neither follows the '@' directly nor ends the address |
| EmailFormat.PatternGivesWellFormed | server/controllers/userController.js:34-37 | every address the pattern accepts is well formed |
| EmailFormat.WellFormedGivesPattern | server/controllers/userController.js:34-37 | every well-formed address is accepted by the pattern |
| JsValues.TrimStart | server/controllers/typeController.js:13 | removes a prefix made only of white space; the rest does not start with white space |
| JsValues.TrimEnd | server/controllers/typeController.js:13 | removes a suffix made only of white space; the rest does not end with white space |
| JsValues.Trim | server/controllers/typeController.js:13 | `trim()` gives text no longer than the original, with no white space at either end |
| JsValues.TrimStartCutIsSpace | server/controllers/typeController.js:13 | what trimming cuts from the front is all white space |
| JsValues.TrimEndCutIsSpace | server/controllers/typeController.js:13 | what trimming cuts from the end is all white space |
| JsValues.TrimEmptyIff | server/controllers/typeController.js:13 | `trim()` gives "" exactly when the text is all white space |
| JsValues.TrimIsInnerSlice | server/controllers/typeController.js:29 | the trimmed text is a slice of the original with only white space cut away, and has no white space at either end |
| JsValues.TrimIdempotent | server/controllers/typeController.js:29 | trimming twice is trimming once |
| JsValues.Utf16Length | server/controllers/typeController.js:18 | `length` counts UTF-16 code units: at least one and at most two per character |
| JsValues.Utf16LengthAppend | server/controllers/typeController.js:18 | the `length` of joined texts is the sum of their lengths |
| JsValues.Utf16LengthOfBasicText | server/controllers/typeController.js:18 | for text inside the Basic Multilingual Plane, `length` is the number of characters |
| JsValues.Utf16LengthOfAstralText | server/controllers/typeController.js:18 | for text outside the Basic Multilingual Plane, `length` is twice the number of characters |
| JsValues.AstralCharCountsTwice | server/controllers/typeController.js:18 | one emoji is one character but has `length` 2 |
| JsValues.Utf16LengthSplit | server/controllers/typeController.js:18 | cutting text in two splits its `length` between the two parts |
| JsValues.TrimShortensUtf16 | server/controllers/typeController.js:29 | trimming never makes the `length` grow |
| Shop.CompletePrefix | server/controllers/deviceController.js:97-106 | the number of items the info loop stores: all of them are complete, and the next item, if any, is not |
| Shop.InfoRows | server/controllers/deviceController.js:97-106 | the rows of the info loop: item i gets key start + i, and no other key is used |
| Shop.InsertInfosRows | server/controllers/deviceController.js:97-106 | inserting the items one by one in order adds exactly one row per item, item i under the i-th next key, and advances the key counter by the number of items |
| Shop.NameProblem | server/controllers/typeController.js:13-20 | a type or brand name is accepted exactly when it is text whose trim is non-empty and whose `length` is at most 50; a refusal carries one of the two messages |
| Shop.WideNameIsTooLong | server/controllers/typeController.js:18-20 | a name of 26 emoji, 26 characters but 52 code units, is refused with the "must not exceed 50 characters" message |
| Shop.AcceptedNameStoredForm | server/controllers/typeController.js:13-29 | an accepted type or brand name is text of at most 50 UTF-16 code units (what `length` counts), and its stored form is non-empty, no longer in characters or in code units, and has no white space at either end |
| Shop.QueryFilter | server/controllers/deviceController.js:166-171 | a filter is the parsed value of a truthy numeric field; a numeric string, even "0", filters; an absent or non-numeric value or the number 0 does not |
| Shop.QueryNumber | server/controllers/deviceController.js:162-179 | an absent limit or page takes its default; a given one is accepted exactly when it is a positive number, and then is that number |
| Shop.PatchKeepsAbsentFields | server/controllers/deviceController.js:271-280 | an update writes only the fields the request carries; the rest, and the rating, keep their values |
| Shop.Upsert | server/controllers/ratingController.js:33-41 | keeps every rating key and adds at most one, under the next key |
| Shop.UpsertRatesOnce | server/controllers/ratingController.js:33-41 | after an upsert the pair has exactly one rating, with the new rate; other ratings are untouched; a user still rates a device at most once |
| Shop.CreateAcceptsCompleteRequests | server/controllers/deviceController.js:24-84 | create's field checks pass exactly for a non-blank name, positive price, type and brand ids, and an image; the stored row has the trimmed name, rating 0 and path "images/" + filename |
| Shop.InfoStepIsLocal | server/controllers/deviceController.js:86-107 | the info step keeps every other device's rows, adds rows of this device only, one per item up to the first incomplete one, and on update first removes all of the device's rows |
| Jwt.GenerateJwt | server/controllers/userController.js:12-18 | a token signs exactly the claims id, email and role, with a 24h lifetime |
| Shop.CheckSession | server/controllers/userController.js:129-146 | check issues a token for the same id, email and role as `req.user`, valid for 24h; a null user gives the internal error |
| Shop.ShopStore.constructor | server/models/models.js:4-66 | an empty shop satisfies every schema invariant |
| Shop.ShopStore.BasketOf | server/controllers/basketController.js:21-24 | the basket found belongs to the user; None only when the user has no basket |
| Shop.ShopStore.LineOf | server/controllers/basketController.js:33-36 | the line found holds that device in that basket; None only when no line does |
| Shop.ShopStore.BasketLineKeys | server/controllers/basketController.js:42-55 | exactly the basket's lines, each once, newest first |
| Shop.ShopStore.Summaries | server/controllers/basketController.js:92 | one summary per line, in the order of the lines, each showing that line's device |
| Shop.ShopStore.InsertLine | server/controllers/basketController.js:39 | adds a line of quantity 1 for a device the basket does not hold, under the next key, and keeps the invariant |
| Shop.ShopStore.AddDevice | server/controllers/basketController.js:9-68 | guards in order: user, device id, basket, device, already in basket; success exactly when all five pass; only success inserts exactly one line with quantity 1, and a duplicate is refused, not incremented |
| Shop.ShopStore.GetBasket | server/controllers/basketController.js:71-98 | answers the basket's devices, newest line first, or the missing-basket error |
| Shop.ShopStore.DeleteLine | server/controllers/basketController.js:133 | removes exactly that line and keeps the invariant |
| Shop.ShopStore.RemoveDevice | server/controllers/basketController.js:100-163 | guards in order: user, device id, basket, line; success exactly when all pass, and then exactly that whole line goes, whatever its quantity |
| Shop.ShopStore.IsBasketEmpty | server/controllers/basketController.js:180-183 | true exactly when the basket has no line |
| Shop.ShopStore.ClearBasket | server/controllers/basketController.js:186 | deletes exactly the basket's lines and keeps every other line as it was |
| Shop.ShopStore.Checkout | server/controllers/basketController.js:169-194 | an empty basket gives a bad request and changes nothing; success exactly when the user's basket has a line, and then only this basket's lines go, and no order or order line is created |
| Shop.ShopStore.UserOrderKeys | server/controllers/orderController.js:12-22 | exactly the user's orders, each once, newest first |
| Shop.ShopStore.AllOrderKeys | server/controllers/orderController.js:58-78 | every order, each once, newest first |
| Shop.ShopStore.OrderLineKeys | server/controllers/orderController.js:15-20 | exactly the order's lines |
| Shop.ShopStore.OrderedDevices | server/controllers/orderController.js:31-37 | defined exactly when every line's device still exists; entry i pairs line i's device fields with that line's quantity |
| Shop.ShopStore.Views | server/controllers/orderController.js:25-38 | one formatted order per key, in the order of the keys |
| Shop.ShopStore.GetOrders | server/controllers/orderController.js:7-45 | the caller's orders, formatted; the internal error when the caller is anonymous or a line's device is gone |
| Shop.ShopStore.GetAllOrders | server/controllers/orderController.js:50-100 | a role other than exactly 'ADMIN' is refused with forbidden before anything is read; otherwise every order with its user |
| Shop.ShopStore.ListingNewestFirst | server/controllers/orderController.js:21 | a listing in decreasing key order has decreasing ids and non-increasing creation times |
| Shop.ShopStore.UserListingIsComplete | server/controllers/orderController.js:12-38 | getOrders lists exactly the caller's orders, each once, newest first, without their user |
| Shop.ShopStore.AdminListingIsComplete | server/controllers/orderController.js:58-93 | getAllOrders lists every order once, newest first, each with its own user's id and e-mail |
| Shop.ShopStore.UpdateOrderStatus | server/controllers/orderController.js:104-152 | guards in order: admin, orderId a positive JSON number, known status, order exists; success exactly when all pass, whatever the order's current status (no forward-only ordering); it changes only that order's status and echoes its other fields |
| Shop.ShopStore.RateDevice | server/controllers/ratingController.js:10-64 | guards in order: device id, rate an integer 1..5, comment (not text, or over 500 UTF-16 code units); an absent comment ends in the internal error; an unknown device is a bad request; a caller with no user row ends in the internal error (the foreign key of `Rating.create`); success exactly when all pass, and then upserts the caller's rating of the device, which keeps every rating tied to an existing user |
| Shop.ShopStore.UserByEmail | server/controllers/userController.js:50-51 | the user found has that e-mail; None only when no user has it |
| Shop.ShopStore.InsertUser | server/controllers/userController.js:61-65 | stores a user whose e-mail no user has under the next key and keeps the invariant |
| Shop.ShopStore.InsertBasket | server/controllers/userController.js:70 | stores the one basket of a user that has none and keeps the invariant |
| Shop.ShopStore.Register | server/controllers/userController.js:22-89 | guards in order: e-mail and password given, e-mail format, e-mail free; a taken e-mail leaves the request unanswered; the 201 answer comes exactly when all pass, and adds one user with the hashed password and the given role or 'USER', plus one basket of that user, and answers 201 with a 24h token for its claims |
| Shop.ShopStore.Login | server/controllers/userController.js:92-126 | succeeds exactly when some user with that e-mail has a password that compares equal; an unknown e-mail and a wrong password give the same error; the token carries that user's id, e-mail and role |
| Shop.ShopStore.DeviceByName | server/controllers/deviceController.js:60-61 | the device found has that name; None only when no device has it |
| Shop.ShopStore.InfoKeys | server/controllers/deviceController.js:136-140 | exactly the device's info rows, each once, in key order |
| Shop.ShopStore.InfoViews | server/controllers/deviceController.js:136-140 | one view per info key, with that row's title and description |
| Shop.ShopStore.TypeRef | server/controllers/deviceController.js:136-138 | the type reference is present exactly when the type row exists, and it shows that row |
| Shop.ShopStore.BrandRef | server/controllers/deviceController.js:136-139 | the brand reference is present exactly when the brand row exists, and it shows that row |
| Shop.ShopStore.DetailIsTheDevice | server/controllers/deviceController.js:136-150 | a device's detail is its own row, with its type and brand when they exist, and exactly its info rows, once each, in key order |
| Shop.ShopStore.Details | server/controllers/deviceController.js:186-195 | one detail per key, in the order of the keys |
| Shop.ShopStore.MatchingKeys | server/controllers/deviceController.js:165-171 | exactly the devices matching the type and brand filters, in key order |
| Shop.ShopStore.AddInfos | server/controllers/deviceController.js:97-106 | the info loop inserts one row per item, in order, and stops at the first incomplete item; its result says whether every item was stored |
| Shop.ShopStore.InsertInfo | server/controllers/deviceController.js:101-105 | stores an info row of an existing device under the next key and keeps the info invariant |
| Shop.ShopStore.CreateRejection | server/controllers/deviceController.js:23-75 | the guards of create: a refused request is answered only with a bad request or the internal error, and it is left unanswered exactly when the fields and the raw name pass but the type or the brand is missing |
| Shop.ShopStore.AcceptedCreateIsSound | server/controllers/deviceController.js:24-75 | a create that passes its guards stores a name that no device has, neither as sent nor trimmed, with a type and brand that exist |
| Shop.ShopStore.InsertDevice | server/controllers/deviceController.js:78-84 | stores the device under the next key and keeps the invariant |
| Shop.ShopStore.WriteDevice | server/controllers/deviceController.js:271-283 | overwrites that device's row and keeps the invariant |
| Shop.ShopStore.ProcessInfo | server/controllers/deviceController.js:86-107 | the info step's error message and resulting info table are those of its specification |
| Shop.ShopStore.CreateDevice | server/controllers/deviceController.js:9-122 | the first failing guard decides the reply and nothing changes; a missing type or brand leaves the request unanswered; otherwise the device is stored first, so an info error still leaves it and the complete infos before the bad one |
| Shop.ShopStore.GetDevice | server/controllers/deviceController.js:125-156 | an invalid id is a bad request, a missing device not found; otherwise the device's detail |
| Shop.ShopStore.GetDevices | server/controllers/deviceController.js:159-206 | limit defaults to 10 and page to 1, and non-positive values are refused; answers the number of matches and page `page` of the matches, at offset (page - 1) * limit |
| Shop.ShopStore.PageRowsMatch | server/controllers/deviceController.js:165-195 | every device on a page matches the filters, and a page holds at most `limit` devices |
| Shop.ShopStore.MatchOnItsPage | server/controllers/deviceController.js:182-195 | every matching device appears on the page its position gives, at the place its position gives |
| Shop.ShopStore.AcceptedUpdateIsSound | server/controllers/deviceController.js:221-268 | an update that passes its guards writes an existing device, with checked fields, an existing type and brand, and a name no other device has; keeping its own name is allowed |
| Shop.ShopStore.UpdateDevice | server/controllers/deviceController.js:209-325 | the first failing guard decides the error and nothing changes; otherwise only the given fields are written, and an info array replaces all of the device's info rows |
| Shop.ShopStore.DropInfos | server/controllers/deviceController.js:345 | deletes exactly the device's info rows |
| Shop.ShopStore.DropRatings | server/controllers/deviceController.js:346 | deletes exactly the device's ratings |
| Shop.ShopStore.DropLines | server/controllers/deviceController.js:347 | deletes exactly the basket lines holding the device |
| Shop.ShopStore.DropDevice | server/controllers/deviceController.js:350 | deleting a device that nothing but order lines refers to keeps the invariant |
| Shop.ShopStore.DeleteDevice | server/controllers/deviceController.js:328-359 | an invalid id is a bad request, a missing device not found; success exactly for an existing device, which goes with exactly its infos, its ratings and the basket lines holding it, and other rows stay |
| Shop.ShopStore.TypeByName | server/controllers/typeController.js:23-24 | the type found has that name; None only when no type has it |
| Shop.ShopStore.TypeRows | server/controllers/typeController.js:70-73 | one (id, name) pair per key, in the order of the keys |
| Shop.ShopStore.TypeList | server/controllers/typeController.js:67-78 | every type exactly once, in key order, with its name |
| Shop.ShopStore.InsertType | server/controllers/typeController.js:29 | stores a type whose name no type has under the next key and keeps the invariant |
| Shop.ShopStore.CreateType | server/controllers/typeController.js:7-37 | the name checks come first (non-blank text of at most 50 UTF-16 code units); a taken raw name is refused; success exactly when all checks pass, storing the trimmed name and answering 201; a collision of the trimmed name ends in the internal error |
| Shop.ShopStore.GetType | server/controllers/typeController.js:40-64 | an invalid id or an unknown type is a bad request; otherwise the type |
| Shop.ShopStore.GetTypes | server/controllers/typeController.js:67-78 | answers every type |
| Shop.ShopStore.RenameType | server/controllers/typeController.js:115 | renames only that type, to a name no other type has, and keeps the invariant |
| Shop.ShopStore.UpdateType | server/controllers/typeController.js:81-126 | guards in order: id, name (non-blank text of at most 50 UTF-16 code units), type exists, name held by a different type; a type may keep its own name; success renames only that type, to the trimmed name |
| Shop.ShopStore.DeleteType | server/controllers/typeController.js:129-154 | an invalid id or an unknown type is a bad request and changes nothing; success exactly for an existing type, and then exactly that one type row goes |
| Shop.ShopStore.BrandByName | server/controllers/brandController.js:23-24 | the brand found has that name; None only when no brand has it |
| Shop.ShopStore.BrandRows | server/controllers/brandController.js:70-73 | one (id, name) pair per key, in the order of the keys |
| Shop.ShopStore.BrandList | server/controllers/brandController.js:67-78 | every brand exactly once, in key order, with its name |
| Shop.ShopStore.InsertBrand | server/controllers/brandController.js:29 | stores a brand whose name no brand has under the next key and keeps the invariant |
| Shop.ShopStore.CreateBrand | server/controllers/brandController.js:7-37 | the name checks come first (non-blank text of at most 50 UTF-16 code units); a taken raw name is refused; success exactly when all checks pass, storing the trimmed name and answering the default 200; a collision of the trimmed name ends in the internal error |
| Shop.ShopStore.GetBrand | server/controllers/brandController.js:40-64 | an invalid id or an unknown brand is a bad request; otherwise the brand |
| Shop.ShopStore.GetBrands | server/controllers/brandController.js:67-78 | answers every brand |
| Shop.ShopStore.RenameBrand | server/controllers/brandController.js:115 | renames only that brand, to a name no other brand has, and keeps the invariant |
| Shop.ShopStore.UpdateBrand | server/controllers/brandController.js:81-126 | guards in order: id, name (non-blank text of at most 50 UTF-16 code units), brand exists, name held by a different brand; success renames only that brand, to the trimmed name |
| Shop.ShopStore.DeleteBrand | server/controllers/brandController.js:129-154 | an invalid id or an unknown brand is a bad request and changes nothing; success exactly for an existing brand, and then exactly that one brand row goes |
| ClientBasket.SumAppend | client/src/store/BasketStore.js:34-36 | the total of two lists put end to end is the sum of their totals |
| ClientBasket.RemoveId | client/src/store/BasketStore.js:23 | no item with the id remains; every other item remains; nothing new appears |
| ClientBasket.OnlyId | client/src/store/BasketStore.js:23 | the items removeItem drops all have that id |
| ClientBasket.RemoveIdDistributes | client/src/store/BasketStore.js:23 | filtering two lists put end to end filters each and keeps their order, so the kept items stay in order |
| ClientBasket.RemoveAbsentId | client/src/store/BasketStore.js:23 | removing an id no item has leaves the list unchanged |
| ClientBasket.RemoveIdIdempotent | client/src/store/BasketStore.js:23 | removing an id twice is removing it once |
| ClientBasket.SumAfterRemove | client/src/store/BasketStore.js:22-36 | after a removal the total drops by exactly the prices of the removed items |
| ClientBasket.BasketStore.constructor | client/src/store/BasketStore.js:6-13 | starts with no items and total 0 |
| ClientBasket.BasketStore.UpdateTotalPrice | client/src/store/BasketStore.js:34-36 | the total becomes the sum of the item prices, a missing price counting 0 |
| ClientBasket.BasketStore.AddItem | client/src/store/BasketStore.js:16-19 | appends the item at the end, duplicates included, and the total grows by its price |
| ClientBasket.BasketStore.RemoveItem | client/src/store/BasketStore.js:22-25 | drops every item with the id and keeps the rest in order; the total stays the sum of prices |
| ClientBasket.BasketStore.ClearBasket | client/src/store/BasketStore.js:28-31 | no items and total 0 |
| ClientOrders.WithNewOrder | client/src/store/OrderStore.js:26-33 | appends exactly one order, numbered after the list's length, pending, and keeps the earlier orders |
| ClientOrders.NewOrderKeepsIdsSequential | client/src/store/OrderStore.js:26-35 | one createOrder keeps order i numbered i + 1 |
| ClientOrders.CreatesNumberOrders | client/src/store/OrderStore.js:26-35 | n createOrder calls add n orders and keep the numbering, so from an empty list they give ids 1..n |
| ClientOrders.OrderStore.constructor | client/src/store/OrderStore.js:6-13 | starts with no orders and no current order |
| ClientOrders.OrderStore.SetOrders | client/src/store/OrderStore.js:16-18 | replaces the list and leaves the current order |
| ClientOrders.OrderStore.SetCurrentOrder | client/src/store/OrderStore.js:21-23 | replaces the current order and leaves the list |
| ClientOrders.OrderStore.CreateOrder | client/src/store/OrderStore.js:26-35 | appends the new pending order and makes it the current order |
| ClientUser.AdminCheckIsCaseSensitive | client/src/store/UserStore.js:27-29 | any role other than exactly "admin" is not an administrator |
| ClientUser.ServerAdminRoleIsNotAdmin | client/src/store/UserStore.js:27-29 | the server's administrator role "ADMIN" is not an administrator for the client |
| ClientUser.UserStore.IsAdmin | client/src/store/UserStore.js:27-29 | an administrator has the role "admin", so the signed-out user `{}` never is |
| ClientUser.UserStore.constructor | client/src/store/UserStore.js:6-13 | starts signed out with the empty user |
| ClientUser.UserStore.SetAuth | client/src/store/UserStore.js:16-18 | changes only the signed-in flag |
| ClientUser.UserStore.SetUser | client/src/store/UserStore.js:21-23 | changes only the user |
| ClientUser.UserStore.Login | client/src/store/UserStore.js:32-35 | signed in, as a user with only an e-mail, and so not an administrator |
| ClientUser.UserStore.Logout | client/src/store/UserStore.js:38-41 | signed out, with the empty user |
| ClientDevices.DeviceStore.constructor | client/src/store/DeviceStore.js:6-13 | starts with no devices and no selection |
| ClientDevices.DeviceStore.SetDevices | client/src/store/DeviceStore.js:16-18 | the list becomes the argument and the selection is kept, so a second call with the same list changes nothing |
| ClientDevices.DeviceStore.SetSelectedDevice | client/src/store/DeviceStore.js:21-23 | the selection becomes the argument and the list is kept, so a second call with the same value changes nothing |

## Left out

- Image upload: files are stored under uuid names, and failed requests remove their file with
  `fs.unlink`. This is filesystem and multer plumbing, so the model sees `req.file` only as an optional
  filename. Its one visible effect, the unanswered create with a missing type or brand, is modelled. A multer error passed with `next(err)` is not modelled.
- Routers, server start-up and the database connection are wiring. The React UI, including
  `AppRouter.jsx` and the pages, is presentation. None of them is modelled. Two routing facts matter for
  reading the model: `routes/index.js` mounts no basket, order or rating router, and `orderRouter.js`
  names a `deleteOrder` that the order controller does not define. No such action is modelled.
- bcrypt and jsonwebtoken are not modelled. Hashing, comparing, signing and verifying are function
  parameters; the JWT secret and the token text are not modelled.
- The user controller's `getAll`, `getOne`, `update` and `delete` only answer fixed messages. They are not modelled.
- The `TypeBrand` junction table is touched by no controller, so it is not modelled.
- The database's referential actions are not modelled: `ON DELETE SET NULL` on a device's `typeId` and
  `brandId`, and on an order line's `deviceId`. Two consequences follow:
  - Deleting a type or brand leaves devices that point at the old key. The device detail shows such a
    reference as null (`TypeRef`, `BrandRef`), as the source does. But such a device still matches the
    `typeId` or `brandId` filter of `GetDevices` in the model. In the source the column is NULL, so the
    device does not match.
  - Deleting a device leaves its order lines pointing at the old key, where the source sets their
    `deviceId` to NULL. Nothing observable differs: in both, the line's device is missing and the order
    listings end in their internal error (`OrderedDevices`).
- Sequelize details are not modelled: the row inflation of `findAndCountAll` with an `include`, SQL ordering of
  rows that `findAll` lists without an `order` (taken here as key order), transactions, and the
  unique-constraint error text. A unique violation is modelled as the action's internal error.
- Column widths are not modelled. `DataTypes.STRING` columns are VARCHAR(255) and `DataTypes.INTEGER`
  columns are 32-bit in the database, while the model's strings and integers are unbounded. A value
  that does not fit makes the insert or update fail in the database, and the controller's catch
  then answers its internal error. Examples are a device name over 255 characters, a price of
  3000000000, an e-mail over 255 characters at register, or an info title over 255 characters.
  The model stores such rows and answers success. This affects `CreateDevice`, `UpdateDevice`,
  `AddInfos`, `Register`, `CreateType` and `CreateBrand`. Likewise a lookup by an id beyond 32 bits
  fails in the database instead of finding nothing, so the model's not-found answer there is the
  source's internal error.
- JavaScript coercion beyond `NumArg` and `TextArg` is not modelled. Fractional numeric strings
  (where `parseInt` truncates), `null` or `""` for
  `limit` and `page` (the default applies only when the value is absent), and a string id compared with
  `!==` are left out. Prices are integers.
- An info item that is `null`, or not an object, throws when the loop reads its title. The model only
  has items with a title and a description (an absent field is "").
- Checkout creates no order, as in the source. Orders and order lines are only read and have their status
  updated. No action inserts them. `Valid()` still constrains them: every order's user exists, its status is one of
  the known statuses, creation times do not decrease with the key (`OrdersChronological`), and every order
  line's order exists.
- Concurrency between requests, console logging and the clock are left out. `createdAt` is an opaque
  number supplied with the row. The client's `new Date().toISOString()` is a parameter.
- MobX observability is left out, as is the rest of a client object: items and devices keep only the fields the stores read.
- The lists that an `include` nests without an `order` (an order's lines, a device's infos) are taken in key
  order, because the controllers give no order for them.
