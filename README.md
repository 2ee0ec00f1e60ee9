# Charlene's Kitchen backend: a Dafny model

This project models the logic of the Charlene's Kitchen restaurant backend, an
Express/Mongoose service, and proves properties of it. It covers:

- **Orders.** The order document, the `CK-YYYYMMDD-NNNN` order number and the
  two pre-save hooks of the status history. The placement pipeline: request
  checks, the item loop that prices lines and bumps each product's
  `orderCount`, totals in integer cents, and the preparation estimate. The
  customer's cancel, the admin's status update, and the order listings and
  admin aggregates.
- **Authentication middleware.** Bearer-token extraction, `authenticate`,
  `optionalAuth`, `requireAdmin`, and the login rate limiter.
- **Mailer.** The per-address throttle, the retry loop of a send, and the
  decisions of the welcome, order-confirmation and status-update emails.
- **Catalog.** The product document: its validators, the price-string rule,
  the running-average rating, `getByCategory` and `searchProducts`. The
  product routes: list filter and sort, featured, categories, single product,
  create, update, soft delete and the availability toggle.
- **Users.** The user document: setters, validators, the public profile, and
  hashing only when the password changed. The account routes: register,
  login, current profile, profile update and password change.

Modelling choices:

- **Money** is held in integer cents. `Math.round(x * 100) / 100` is a half-up
  division (`Orders.RoundDiv`). Ratings are `real`.
- **Collections.** Products and users live in store classes (`ProductStore`,
  `UserStore`) whose `seq` field every write goes through, with validation
  first, as in Mongoose's `save()`. The handlers that load one order receive
  that document (or `null`).
- **Foreign collaborators** become parameters:
  - the clock (`now`, the calendar day, the start of today);
  - the day's order count;
  - `jwt.verify`, as a function from token to verdict;
  - the mail transport, as a function telling whether attempt `i` goes through.
- **Hashes.** `bcrypt` is the abstract `Digest` constructor: a digest matches
  exactly the text it was made from.
- **Mongoose behaviour assumed:**
  - validation runs before the pre-save hooks;
  - the `trim` and `lowercase` setters run on assignment and on query filters;
  - update validators check only the supplied paths;
  - a malformed id is a cast error reported before validation;
  - the `match` validator accepts an empty string;
  - `maxlength`, `minlength` and `.length` count UTF-16 code units, so a
    character outside the Basic Multilingual Plane counts twice
    (`Text.Utf16Length`).

The model follows the code, including where it behaves in a way a reader might not expect:

- no status of an order is terminal: the admin update accepts any status from
  any other;
- a rating score is never range-checked; only the resulting average is
  checked at save;
- `loginRateLimit` is defined but mounted on no route, and the mailer is called
  from no order or account route; both are modelled as the functions they are;
- an order with an unknown `orderType` has already bumped its products' counts
  when validation refuses it (`Orders.UnknownOrderTypeFailsAfterBumps`);
- the admin listing's day filter covers one day from the given instant.

## Model

| member | source | states |
|---|---|---|
| OrderModel.ParseStatus | backend/models/Order.js:79-86 | a status string is accepted exactly when it names one of the seven statuses, and it is read back as that status |
| OrderModel.ParseStatusName | backend/models/Order.js:79-86 | every status's name parses back to that status |
| OrderModel.PaddedValue | backend/models/Order.js:249 | a number padded with zeros is all digits and still denotes the number |
| OrderModel.Pad2Length | backend/models/Order.js:232-234 | a month or day from 1 to 99 pads to exactly two characters |
| OrderModel.OrderNumberLength | backend/models/Order.js:231-249 | with a four-digit year and fewer than 9999 orders already today, the order number has 16 characters |
| OrderModel.LongSequenceNotTruncated | backend/models/Order.js:249 | from the 10000th order of a day on, the sequence is the plain number and longer than four digits: `padStart` never truncates |
| OrderModel.ParseParts | backend/models/Order.js:249 | a `CK-<year><month><day>-<seq>` string of digit fields parses into those fields |
| OrderModel.OrderNumberRoundTrip | backend/models/Order.js:231-249 | the date and the sequence number `todayCount + 1` can be read back out of every generated order number |
| OrderModel.OrderNumbersIncrease | backend/models/Order.js:242-249 | two different day counts on one day give different numbers, and the parsed sequences keep their order |
| OrderModel.HooksAppendOnly | backend/models/Order.js:227-278 | the hooks keep the old history as a prefix and add at most one entry, and one exactly when the first-save or the status-change condition holds |
| OrderModel.FirstSaveHistory | backend/models/Order.js:252-258 | the first save of a new, unnumbered order starts an empty history with the `Ordine creato` entry of its status |
| OrderModel.StatusChangeHistory | backend/models/Order.js:269-277 | a save of a stored order whose status changed appends exactly the `Stato aggiornato a: <status>` entry; otherwise the history is unchanged |
| OrderModel.OrderMessages | backend/models/Order.js:3-224 | the reply lists one message per violation, in order |
| OrderModel.ItemChecks | backend/models/Order.js:33-47 | two checks per line, holding exactly when its quantity is at least 1 and its notes have at most 200 UTF-16 code units (`.length`, so an emoji counts twice) |
| OrderModel.ItemChecksHold | backend/models/Order.js:33-47 | every line check holds exactly when every line has a quantity of at least 1 and notes of at most 200 UTF-16 code units |
| OrderModel.OrderTypeCheck | backend/models/Order.js:112-117 | the order type passes exactly when it is `delivery`, `pickup` or `dine-in`; an empty type is reported as missing (`required` runs before `enum`), any other as not a valid enum value |
| OrderModel.FieldChecksHold | backend/models/Order.js:51-177 | the order-level checks hold exactly when the amounts are non-negative, the order type is known, a delivery has a full address, the contact phone and email are present, and the instructions and notes are within 300 and 500 UTF-16 code units |
| OrderModel.OrderErrorsEmpty | backend/models/Order.js:3-224 | validation reports nothing exactly when every schema constraint of the order holds |
| OrderModel.OrderDocument.constructor | backend/models/Order.js:3-224 | `new Order` applies the trim and lowercase setters and the defaults: no number, empty history, a new document |
| OrderModel.OrderDocument.SetStatus | backend/models/Order.js:79-86 | the status is set; it is marked modified only when it differs; what validation reports is unchanged |
| OrderModel.OrderDocument.PushHistory | backend/models/Order.js:185-198 | appends one entry; what validation reports is unchanged |
| OrderModel.OrderDocument.SetActualDeliveryTime | backend/models/Order.js:152-154 | records the delivery time and nothing else |
| OrderModel.OrderDocument.Save | backend/models/Order.js:226-278 | a refused validation changes nothing. Otherwise a new unnumbered order gets `OrderNumber(today, todayCount)`, an existing number is never overwritten, the history is what both hooks give, and the document is no longer new |
| OrderModel.OrderDocument.SaveExisting | backend/models/Order.js:269-277 | a save of a stored order adds only the status-change entry, and only when the status was modified; the number and creation time stay |
| OrderModel.OrderDocument.RunHooks | backend/models/Order.js:226-278 | the number hook and the history hook in order, as one step |
| OrderModel.OrderDocument.UpdateStatus | backend/models/Order.js:312-320 | `updateStatus` sets the status and adds its own entry; on a stored order that really changes, the save's hook adds a second one; on a new document only its own entry is added and the number is generated; a failed save keeps the assignment and the push; items, totals, type, delivery and contact data, notes and requested time never change |
| OrderModel.OrderDocument.CalculateTotal | backend/models/Order.js:322-326 | the subtotal becomes the sum of the line subtotals and the total becomes subtotal + tax + delivery fee, unrounded |
| OrderModel.TrimItemNotes | backend/models/Order.js:43-47 | the trim setter of the line notes changes each line's notes and nothing else |
| Orders.RequestError | backend/routes/orders.js:26-49 | a placement passes the request checks exactly when there are items, a contact phone and email, and for a delivery a complete address; missing or empty items give the items message |
| Orders.FindListed | backend/routes/orders.js:64-68 | the found product has the requested id and is available and published; with distinct ids, nothing is found exactly when no product with the id is available and published |
| Orders.RejectionSticks | backend/routes/orders.js:55-92 | once an item is rejected, later items change nothing: the outcome is the one at the rejection |
| Orders.RejectionSticksPrefix | backend/routes/orders.js:55-92 | the same for every longer prefix of the item list |
| Orders.FindSameButCounts | backend/routes/orders.js:64-68 | bumping order counts does not change which product a lookup finds |
| Orders.ProcessItemsKeepsProducts | backend/routes/orders.js:55-92 | the item loop changes only the products' order counts |
| Orders.ProcessItemsShape | backend/routes/orders.js:77-87 | each line's subtotal is price times quantity, its quantity is at least 1, the running subtotal is the sum of the lines, and an accepted run has one line per item |
| Orders.ProcessItemsPriced | backend/routes/orders.js:55-92 | after any prefix of the items every line is priced as price times a quantity of at least 1, the subtotal is the lines' sum, and an accepted prefix has one line per item |
| Orders.StepItemPriced | backend/routes/orders.js:77-87 | one iteration keeps the lines priced and summed, and a step that leaves the run accepted came from an accepted run and added exactly one line |
| Orders.ProcessItemsAccepts | backend/routes/orders.js:55-75 | the loop accepts the items exactly when every item has an id, a quantity of at least 1 and a listed product |
| Orders.AcceptsAll | backend/routes/orders.js:55-75 | the loop's acceptance is the recursive statement that every item is acceptable |
| Orders.AllAcceptableEach | backend/routes/orders.js:55-75 | the recursive statement is the same as "each item is acceptable" |
| Orders.StepAccepts | backend/routes/orders.js:55-92 | one step keeps the run accepted exactly when it was and the item is acceptable |
| Orders.FirstRejectionDecides | backend/routes/orders.js:55-160 | a rejection at item k names that item: the malformed-item message, the cast error's `ID prodotto non valido`, or the unavailable product; the products keep exactly the bumps of items 0..k-1 |
| Orders.ProcessItemsCounts | backend/routes/orders.js:89-91 | after an accepted run, each product's order count has grown by the total quantity ordered of it |
| Orders.RoundDiv | backend/routes/orders.js:109-112 | half-up rounding of n/d: the result is the nearest integer, ties upwards |
| Orders.DeliveryFee | backend/routes/orders.js:97 | 350 cents for a delivery, 0 otherwise |
| Orders.StoredTotalIsSum | backend/routes/orders.js:94-112 | the stored total is the stored subtotal plus the stored tax plus the fee |
| Orders.TaxIsTenPercent | backend/routes/orders.js:95-110 | the tax is 10% of the subtotal rounded half-up to the cent |
| Orders.TotalsExample | backend/routes/orders.js:94-112 | concrete totals: 17.00 gives a tax of 1.70 and totals of 22.20 (delivery) and 18.70 (pickup); 12.34 and 12.35 round to 1.23 and 1.24 |
| Orders.Estimate | backend/routes/orders.js:101-103 | the estimate is now + 45 minutes for a delivery, now + 30 otherwise |
| Orders.DeliveryInfoFor | backend/routes/orders.js:114-118 | only a delivery order has delivery information, and it holds the estimate |
| Orders.RunItem | backend/routes/orders.js:55-92 | one iteration of the loop on the product store does what one step of the item fold describes |
| Orders.RunItems | backend/routes/orders.js:52-92 | the loop leaves the store, the lines, the subtotal and the rejection that the item fold describes |
| Orders.NewOrder | backend/routes/orders.js:101-127 | `new Order` from the request: the caller, trimmed lines, the rounded totals, the fee, the order type, the delivery sub-document with its estimate (only for deliveries) and trimmed instructions, the normalised contact, the trimmed notes, the requested time, pending and unpaid, without number or history |
| Orders.SaveNewOrder | backend/routes/orders.js:129-153 | a validation failure is a 400 with the messages; otherwise the placed order has every computed field, including the delivery sub-document, contact, notes and requested time, the generated number, the creation entry and `createdAt = now` |
| Orders.PlaceOrder | backend/routes/orders.js:14-167 | request errors change nothing. A rejected item (missing field, uncastable id, unavailable product) is a 400 and leaves the earlier items' bumps. A validation failure is a 400 with the messages. Success stores the priced lines, the cent totals and fee, the delivery sub-document with the estimate, the contact, notes and requested time, pending, the generated number and the creation entry |
| Orders.PlacedTotalsConsistent | backend/routes/orders.js:77-112 | an accepted placement's totals are what `calculateTotal` would compute from its lines |
| Orders.SumSubtotalsTrim | backend/models/Order.js:322-326 | trimming line notes does not change the sum of the subtotals |
| Orders.UnknownOrderTypeFailsAfterBumps | backend/routes/orders.js:18-129 | an unknown order type is refused only by validation, after the item loop |
| Orders.CancelNoteTrimmed | backend/routes/orders.js:302-307 | the fixed cancel note is unchanged by the trim setter |
| Orders.CancelOrder | backend/routes/orders.js:278-330 | an uncastable id is 500. Another user's or a missing order is 404. A status other than pending or confirmed is 400. On all three the order is unchanged. Otherwise the status becomes cancelled and the history gains the cancel entry and the hook's entry |
| Orders.ApplyStatus | backend/routes/orders.js:476-491 | sets the status, appends the given or the default note, and stamps the delivery time for `delivered` |
| Orders.UpdateOrderStatus | backend/routes/orders.js:452-524 | a missing or unknown status is 400 and changes nothing; then an uncastable id is 400 `ID ordine non valido` and a missing order is 404. Any of the seven statuses is accepted from any current status, with its entry, the hook's entry when it changed, and the delivery time for `delivered` |
| OrderStats.OrderLeIsPreorder | backend/routes/orders.js:189-190 | the sort requested by `sortBy` and `order` is a total preorder, for each of the stored fields and both directions |
| OrderStats.KeyLeTotal | backend/routes/orders.js:190 | any two orders compare one way or the other on every sort key |
| OrderStats.KeyLeTransitive | backend/routes/orders.js:190 | the order on every sort key, numbers, status and type names and order numbers alike, is transitive |
| OrderStats.Ranked | backend/routes/orders.js:189-199 | the matched orders are ranked into a permutation of them sorted by the requested key and direction |
| OrderStats.List | backend/routes/orders.js:189-215 | a negative skip is a 500. Otherwise the rows are the window at `(page - 1) * limit` of the ranked matches, and the pagination is that of all of them |
| OrderStats.UserOrders | backend/routes/orders.js:172-227 | a negative skip is an error. Otherwise the rows are the requested window of the caller's orders of the requested status, ranked; they are all such orders; the count is of every such order |
| OrderStats.AdminOrders | backend/routes/orders.js:337-447 | a negative skip is an error. Otherwise the rows are the requested window of the orders matching the status, type and day filters, ranked, and the count is of every matching order |
| OrderStats.ListSorted | backend/routes/orders.js:189-202 | a listed page is in the order of the requested key and direction, and holds `limit` orders whenever that many matches lie past its skip |
| OrderStats.InPeriod | backend/routes/orders.js:552-557 | the orders created at or after the start, and only those |
| OrderStats.TallyDayCounts | backend/routes/orders.js:392-418 | today's totals count every order of today, their revenue, the pending ones and the delivered ones |
| OrderStats.TodayStatsEmpty | backend/routes/orders.js:413-418 | with no order today the counts are all zero |
| OrderStats.StartDate | backend/routes/orders.js:535-549 | any period other than today or month counts as a week |
| OrderStats.Statistics | backend/routes/orders.js:552-612 | with no orders in the period, every figure is zero |
| OrderStats.TallyPeriodCounts | backend/routes/orders.js:559-573 | the period's figures count every order, its revenue, and the delivery, pickup and cancelled orders |
| OrderStats.StatisticsMeaning | backend/routes/orders.js:552-612 | the statistics are the counts of the orders since the start (all, delivery, pickup and cancelled) and their revenue, and the average is their mean total rounded half-up to the cent |
| OrderStats.Unwind | backend/routes/orders.js:580 | every line of every order appears in the unwound lines, and every unwound line is a line of some order |
| OrderStats.SumsAppend | backend/routes/orders.js:580-588 | a product's quantity and revenue over two runs of lines add up |
| OrderStats.UnwindSums | backend/routes/orders.js:580-588 | per product, the unwound lines sum to the quantity and revenue the orders sold of it, order by order |
| OrderStats.UnwindHasLine | backend/routes/orders.js:580 | the unwound lines name a product exactly when some order has a line of it |
| OrderStats.GroupOf | backend/routes/orders.js:581-588 | the group found has the id; none is found only when no group has it |
| OrderStats.GroupSums | backend/routes/orders.js:581-588 | grouping gives one entry per product that has a line, holding its summed quantity and revenue |
| OrderStats.NoLineNoSum | backend/routes/orders.js:581-588 | a product without lines sums to zero |
| OrderStats.AddLineSums | backend/routes/orders.js:581-588 | adding one line keeps the groups an exact summary of the lines |
| OrderStats.TopProductsOfPeriod | backend/routes/orders.js:578-591 | `topProducts` of the orders since the start: at most five entries, by quantity descending, no product twice; each is a product some order of the period has a line of, with the quantity and revenue the period's orders sold of it; no product left out sold more than a listed one; fewer than five entries list every product sold |
| OrderStats.TopEntriesSold | backend/routes/orders.js:578-588 | each top entry is a product of the period with its summed quantity and revenue |
| OrderStats.TopLeavesOutLess | backend/routes/orders.js:589-590 | a product of the period that is left out sold no more than any listed one |
| OrderStats.TopListsAllWhenShort | backend/routes/orders.js:590 | with fewer than five entries, every product of the period is listed |
| OrderStats.GroupEntries | backend/routes/orders.js:581-588 | every product with a line has its group holding its quantity, and every group is of such a product |
| OrderStats.PeriodLines | backend/routes/orders.js:580-588 | the period's lines name and sum each product as its orders do |
| OrderStats.TopProductsMeaning | backend/routes/orders.js:578-591 | over any lines: at most five products, by total quantity descending, with distinct ids and their true quantity and revenue, none left out sold more than one kept, and all of them when fewer than five |
| OrderStats.TopOfRanked | backend/routes/orders.js:589-590 | the first five groups by quantity are sorted, taken from the groups, none left out ranks above a kept one, all are kept when fewer than five, and their ids stay distinct |
| OrderStats.DistinctAfterSort | backend/routes/orders.js:589 | sorting keeps the product ids distinct |
| Pagination.TotalPages | backend/routes/orders.js:212 | `Math.ceil(total / limit)`: the least page count covering the total for a positive limit; infinite or not-a-number for a zero limit |
| Pagination.Window | backend/routes/products.js:75-81 | `skip` then `limit`: the page is the run of items from the skip; with a non-zero limit it holds `min(limit, items left)` of them (all that are left for a zero limit), and nothing past the end |
| Pagination.PageOf | backend/routes/orders.js:193-201 | a page fails exactly when the skip `(page - 1) * limit` is negative |
| Pagination.PagesFromSuffix | backend/routes/orders.js:193-201 | the pages from one page on are the items from its skip on |
| Pagination.SkipStep | backend/routes/orders.js:195 | the next page starts `limit` items later |
| Pagination.PagesCoverListing | backend/routes/orders.js:193-215 | pages 1 to `totalPages` together are the whole listing, in order |
| Pagination.HasNextPageMeansMore | backend/routes/orders.js:214 | `hasNextPage` holds exactly when the next page is not empty |
| AuthGate.ExtractToken | backend/middleware/auth.js:17-20 | a `Bearer ` header yields what follows the prefix; any other header is used whole |
| AuthGate.ExtractBearer | backend/middleware/auth.js:17-20 | a bearer header gives back the token it was built from |
| AuthGate.Authenticate | backend/middleware/auth.js:5-78 | the request proceeds exactly when there is a header, a non-empty token, a verified id and an active user with that id, whose identity is attached. A missing header, an empty token, an expired or malformed token, an unknown user and a disabled account each get their own 401 message; the reply is 500 exactly for a verifier error of another kind |
| AuthGate.OptionalAuth | backend/middleware/auth.js:109-144 | never refuses |
| AuthGate.OptionalMatchesStrict | backend/middleware/auth.js:109-144 | the optional middleware attaches exactly the identity `authenticate` would accept, and none whenever it would refuse |
| AuthGate.RequireAdmin | backend/middleware/auth.js:81-106 | proceeds exactly for an attached admin; no identity is 401 and another role is 403 |
| AuthGate.AdminGate | backend/middleware/auth.js:5-106 | an admin route is reached only by an active admin |
| AuthGate.CeilMinutes | backend/middleware/auth.js:170 | the whole number of minutes rounded up |
| AuthGate.LoginRateLimiter.constructor | backend/middleware/auth.js:147 | the attempts map starts empty |
| AuthGate.LoginRateLimiter.Admit | backend/middleware/auth.js:149-179 | a new client or an expired window starts a window with count 1. Inside the window, five admitted requests cause refusals with the map unchanged; otherwise the count grows by one. The minutes reported lie in [0, 15]. The answer and the new entry are those of `Step` on the old entry |
| AuthGate.AtMostFivePerWindow | backend/middleware/auth.js:149-179 | requests within one open window, each decided by `Step` as `Admit` decides it, are admitted at most five times in all, and the window's end does not move |
| AuthRoutes.SignToken | backend/routes/auth.js:8-12 | the token carries the user id, is issued at the current second and expires seven days later |
| AuthRoutes.Register | backend/routes/auth.js:17-82 | a missing name, email or password is 400; a taken (normalised) email is 400; a validation failure is 400 with the messages. Otherwise the user is stored with a trimmed name, a lowercased trimmed email, a hashed password and a fresh id, and the reply is 201 with a token and the public profile |
| AuthRoutes.LoginRefusal | backend/routes/auth.js:100-125 | a login is refused unless the email is known, the password matches and the account is active; a disabled account is reported only after the password matched |
| AuthRoutes.UnknownEmailLikeWrongPassword | backend/routes/auth.js:103-116 | with a password that does not match, an unknown and a known email get the same refusal |
| AuthRoutes.Login | backend/routes/auth.js:87-153 | missing fields are 400; a refusal is 401 with its message and changes nothing; a successful login records `lastLogin = now` and nothing else, and replies with a token and the profile |
| AuthRoutes.Me | backend/routes/auth.js:158-186 | 404 exactly when no user has the id; otherwise the user's public profile |
| AuthRoutes.MergeAddress | backend/routes/auth.js:206-211 | supplied address keys override (trimmed) and the others are kept |
| AuthRoutes.ProfileUpdate | backend/routes/auth.js:203-211 | only the truthy supplied name and phone change (trimmed); the address changes only when one is supplied; every other field stays |
| AuthRoutes.UpdateProfile | backend/routes/auth.js:191-242 | 404 for an unknown user; a validation failure is 400 and changes nothing; otherwise the updated user is stored and its profile returned |
| AuthRoutes.ChangePassword | backend/routes/auth.js:247-301 | missing fields are 400; an unknown user is 404; a wrong current password is 401 with nothing changed; a new password under six UTF-16 code units (`newPassword.length < 6`) is 400; otherwise the stored hash is of the new password, which then matches |
| AuthRoutes.PasswordOnlyCheck | backend/models/User.js:22-27 | on a valid user, setting a new password can fail only the length check |
| AuthRoutes.OldPasswordStopsMatching | backend/models/User.js:90-93 | after a change, a password matches exactly when it is the new one |
| UserModel.NormalEmail | backend/models/User.js:11-21 | the stored email is lowercased and trimmed, and trimming it again changes nothing |
| UserModel.TrimOption | backend/models/User.js:33-37 | the trim setter keeps an absent value absent |
| UserModel.UserMessages | backend/models/User.js:4-73 | one message per violation, in order |
| UserModel.UserErrorsEmpty | backend/models/User.js:4-73 | validation reports nothing exactly when the name is present and at most 50 UTF-16 code units, the email matches the pattern, a plain password has at least 6 UTF-16 code units, the role is customer or admin, and a non-empty phone matches its pattern |
| UserModel.EmailValidExample | backend/models/User.js:17-20 | `ada@mail.it` matches the email pattern |
| UserModel.EmailWithoutTldExample | backend/models/User.js:17-20 | `ada@mail`, without a final two- or three-letter part, does not |
| UserModel.ProfileDropsOnlySecrets | backend/models/User.js:96-102 | the profile loses only the password and the reset token and its expiry: adding them back gives the user, and two users have the same profile exactly when they agree on every other field |
| UserModel.HashedOnSave | backend/models/User.js:76-88 | an unchanged password keeps its stored hash; a changed one is hashed |
| UserModel.FindUser | backend/routes/auth.js:161 | the user found has the id; none exists when none is found |
| UserModel.FindByEmail | backend/routes/auth.js:100-101 | the user found has the email; none is found exactly when the email is not taken |
| UserModel.UserStore.constructor | backend/models/User.js:4-73 | the collection starts empty |
| UserModel.UserStore.Insert | backend/models/User.js:75-88 | a validation failure or a taken email (the unique index) changes nothing; otherwise the user is appended with a fresh id, the hashed password and the creation time |
| UserModel.UserStore.Save | backend/models/User.js:75-88 | a validation failure or another user's email changes nothing; otherwise the user replaces the stored one, with the stored hash kept unless the password changed |
| UserModel.UnvalidatedChangeKeepsValid | backend/models/User.js:58-70 | changing only `lastLogin` or `isActive` keeps a valid user valid |
| Mailer.ThrottleKey | backend/config/nodemailer.js:11 | the key has the email, a dash and the kind |
| Mailer.ThrottleKeyInjective | backend/config/nodemailer.js:11 | for one kind of message, different emails have different keys |
| Mailer.ThrottleKeyCollision | backend/config/nodemailer.js:11 | across kinds, two different pairs can share one key |
| Mailer.Throttle | backend/config/nodemailer.js:10-21 | a send is let through exactly when it is not throttled; then `now` is recorded, otherwise the map is unchanged |
| Mailer.ThrottleWindow | backend/config/nodemailer.js:10-21 | after a send at t1, a later request under the same key is refused exactly while less than five minutes have passed |
| Mailer.ThrottleKeysApart | backend/config/nodemailer.js:10-21 | a request under one key leaves every other key's entry as it was |
| Mailer.MailThrottle.constructor | backend/config/nodemailer.js:9 | the cache starts empty |
| Mailer.MailThrottle.CanSend | backend/config/nodemailer.js:10-21 | refuses inside the window of the last recorded send with the map unchanged; otherwise records `now` and agrees |
| Mailer.WaitClosedForm | backend/config/nodemailer.js:61-62 | the total wait before attempt k is 500·k·(k+1) ms |
| Mailer.SendMail | backend/config/nodemailer.js:47-65 | returns on the first successful attempt, after failing all earlier ones; fails only after `retries` failures; makes at most `retries` calls, waiting `1000·(i+1)` ms after each failure but the last; with `retries` ≤ 0 it tries nothing |
| Mailer.SendWelcome | backend/config/nodemailer.js:89-167 | a missing email or name is false with nothing recorded; a throttled one is true with no attempt; otherwise the send is recorded first and the result is whether one of three attempts went through |
| Mailer.SendOrderConfirmation | backend/config/nodemailer.js:170-237 | without a user it is false with no attempt; otherwise whether one of three attempts went through |
| Mailer.OwnStatusInfo | backend/config/nodemailer.js:244-250 | exactly the five listed statuses have their own entry |
| Mailer.StatusInfoAsWritten | backend/config/nodemailer.js:252 | as written: own entries for the listed statuses, and the default for names that are neither listed nor inherited from `Object.prototype` |
| Mailer.StatusInfoOf | backend/config/nodemailer.js:244-252 | corrected: own entries for the listed statuses, the default for every other status |
| Mailer.InheritedStatusBreaksSubject | backend/config/nodemailer.js:252-258 | as written, the status `toString` gives the subject `undefined undefined - Ordine <n>` instead of the default |
| Mailer.StatusInfoOfIsListed | backend/config/nodemailer.js:244-252 | the corrected lookup always yields a table entry or the default |
| Mailer.SendStatusUpdate | backend/config/nodemailer.js:240-305 | `pending` is true with no attempt; without a user it is false with no attempt; otherwise the subject leads with the status's entry, taken from the corrected lookup, and the result is whether one of three attempts went through |
| ProductModel.PriceValidExamples | backend/models/Product.js:20-25 | `12`, `8.5` and `8.05` pass the price pattern; `12.345`, `-3`, `5.` and `.5` do not |
| ProductModel.FractionFacts | backend/models/Product.js:20-25 | the printed fraction of a price is empty for whole amounts and otherwise `.` with one or two digits of the right value |
| ProductModel.UnsignedPriceParts | backend/models/Product.js:20-25 | a non-negative price prints as its whole part followed by its fraction |
| ProductModel.PriceStringValid | backend/models/Product.js:16-25 | the printed price passes the pattern exactly when it is not negative |
| ProductModel.PriceRoundTrip | backend/models/Product.js:16-25 | a non-negative price in cents prints to a string that passes the pattern and parses back to the same cents |
| ProductModel.ProductMessages | backend/models/Product.js:3-136 | one message per violation, in order |
| ProductModel.ElementChecks | backend/models/Product.js:56-66 | one check per array element, holding exactly when the element is an allowed value |
| ProductModel.ElementChecksHold | backend/models/Product.js:56-66 | every element check holds exactly when every element is allowed |
| ProductModel.ProductErrorsEmpty | backend/models/Product.js:3-136 | validation reports nothing exactly when every schema constraint holds: required fields and their lengths in UTF-16 code units, price and pattern, the enumerations, preparation time in [1, 180], servings at least 1, and an average rating in [0, 5] |
| ProductModel.HeadChecksHold | backend/models/Product.js:4-44 | the first group of checks holds exactly when the text, price, category, image and Cloudinary constraints hold |
| ProductModel.TailChecksHold | backend/models/Product.js:51-122 | the remaining checks hold exactly when the array, range and enumeration constraints hold |
| ProductModel.Rated | backend/models/Product.js:171-176 | one rating adds one to the count and makes the average the new total divided by the new count |
| ProductModel.RateAllIsMean | backend/models/Product.js:171-176 | starting from no ratings, after n ratings the count is n and the average is their arithmetic mean |
| ProductModel.RatedInRange | backend/models/Product.js:112-116 | an average within [0, 5] stays there after a rating within [0, 5] |
| ProductModel.RatedOutOfRange | backend/models/Product.js:171-176 | a score of 7 on an average of 5 from one rating gives 6, which the schema refuses |
| ProductModel.ByOrderCountThenNewestTotal | backend/models/Product.js:151 | order count descending, then newest first, is a total preorder |
| ProductModel.GetByCategory | backend/models/Product.js:146-152 | exactly the available, published products of the category, each as many times as it is stored, by order count descending then newest first |
| ProductModel.SearchProducts | backend/models/Product.js:155-168 | exactly the available, published products whose name, description or an ingredient contains the term, ignoring case |
| ProductModel.SearchIgnoresCase | backend/models/Product.js:161-163 | the search gives the same products for a term and its lowercase form |
| ProductModel.Find | backend/routes/products.js:186 | the first product with the id, or none when no product has it |
| ProductModel.ProductStore.constructor | backend/models/Product.js:3-136 | the collection starts empty |
| ProductModel.ProductStore.Insert | backend/models/Product.js:3-136 | a validation failure changes nothing; otherwise the product is appended with a fresh id and the creation time |
| ProductModel.ProductStore.Put | backend/routes/products.js:330-334 | a valid product replaces the one at its position |
| ProductModel.ProductStore.BumpOrderCount | backend/routes/orders.js:89-91 | one product's order count grows by the quantity and nothing else changes |
| ProductModel.ProductStore.UpdateRating | backend/models/Product.js:171-176 | the rated product is saved when the new average passes validation, always so for a score in [0, 5]; otherwise nothing changes |
| Products.BuildFilter | backend/routes/products.js:23-49 | the filter always asks for published products and accepts exactly the products the query wants: the category, `available` true only for the string `true`, any of the comma-separated dietary options, and the term |
| Products.SortSpecOf | backend/routes/products.js:52-70 | `popular` and `newest` always sort descending; otherwise the direction is descending exactly for `desc`; unknown keys sort by name |
| Products.SortLeIsPreorder | backend/routes/products.js:52-70 | every sort the list can request is a total preorder |
| Products.ListPage | backend/routes/products.js:73-99 | a negative skip is an error; otherwise the rows are the window at `(page - 1) * limit` of the matching products ranked by the sort document, and the pagination counts every matching product |
| Products.RankedProducts | backend/routes/products.js:78-79 | the matched products are ranked into a permutation of them sorted by the sort document |
| Products.ListPageSorted | backend/routes/products.js:76-81 | a listed page is in the requested order, and holds `limit` products whenever that many matches lie past its skip |
| Products.ListProducts | backend/routes/products.js:10-120 | the defaults are page 1, limit 20, sort by name ascending; the page is the requested window of the wanted products ranked by the requested sort, and the count is of all of them |
| Products.FeaturedLimit | backend/routes/products.js:153 | `parseInt(limit) \|\| 6`: 6 when absent, never 0 |
| Products.Featured | backend/routes/products.js:151-177 | available, published products only, none more often than stored, by order count then rating, as many as the limit and the listed products allow, and no listed product left out ranks above a kept one |
| Products.FeaturedTop | backend/routes/products.js:151-161 | the first `n` of the ranked listed products are drawn from them and none left out ranks above a kept one |
| Products.PrefixRanksAbove | backend/routes/products.js:151-161 | in the sorted featured ranking, every product among the first `n` ranks above every product not among them |
| Products.Distinct | backend/routes/products.js:129-134 | the same names once each |
| Products.CategoriesMembers | backend/routes/products.js:129-134 | the categories of a list are exactly those its products have |
| Products.CategoryList | backend/routes/products.js:125-146 | exactly the categories of available, published products, each once, in order |
| Products.ListedCategories | backend/routes/products.js:129-134 | the distinct categories of the listed products are exactly their categories |
| Products.TextOrderIsPreorder | backend/routes/products.js:135 | the string order of the category sort is a total preorder |
| Products.GetProduct | backend/routes/products.js:182-220 | a malformed id is 400; a published product with the id is found, and otherwise the reply is 404 |
| Products.CreateDefaults | backend/routes/products.js:267-282 | a new product is listed, unrated and never ordered, has the trimmed name, and takes 30 minutes, `medio`, 1 serving, empty arrays and an empty Cloudinary id when these are not given |
| Products.MissingCloudinaryIdRejected | backend/routes/products.js:267-282 | without a Cloudinary id, the empty default fails the schema's `required` check |
| Products.CreateProduct | backend/routes/products.js:227-311 | a falsy name, description, price, category or image is 400 (a price of 0 included). A trimmed name taken by a non-archived product is 400. A validation failure is 400 with the messages. Otherwise the product is stored with a fresh id (201). Refusals change nothing |
| Products.ValidPatchKeepsValid | backend/routes/products.js:327-334 | a patch that passes the update validators keeps a valid product valid |
| Products.UpdateKeepsProtected | backend/routes/products.js:319-325 | the id, creation time, order count and rating survive any update; the supplied fields are applied |
| Products.UpdateProduct | backend/routes/products.js:316-375 | a malformed id is 400; a failing patch is 400 with the messages; an unknown id is 404; refusals change nothing. Otherwise the stripped patch is applied to the product and returned |
| Products.ArchiveProduct | backend/routes/products.js:380-423 | a malformed id is 400 and an unknown one is 404, both changing nothing; otherwise only status and availability change (archived, unavailable), and the product is then no longer found |
| Products.SetAvailability | backend/routes/products.js:428-472 | a non-boolean value is 400; a malformed id is 500 (no cast branch); an unknown id is 404; otherwise only `available` changes |

## Left out

- Persistence, `populate`, `countDocuments`, `distinct` and the aggregation
  engine: collections are in-memory sequences and the aggregates are folds.
- `bcrypt` and JWT signing and verification: a hash is the abstract `Digest`
  and the verifier is a parameter.
- The mail transport, its TLS settings, `verifyConnection` and the message
  bodies: a send is the transport oracle, and of the texts only the
  status-update subject is modelled.
- Calendar arithmetic (`setHours`, `setDate`, `setMonth`): the current day, the
  start of today and the period starts are inputs.
- Concurrency, including races on the day's order count and on `orderCount`.
- Floating-point artefacts: money is in whole cents and `parseInt` of a
  malformed number (`NaN`) is not modelled; a price arrives as cents.
- `backend/config/cloudinary.js`, `backend/server.js` and
  `backend/routes/test-email.js` are not part of this model.
- The profile routes' `req.userId`: nothing in the source sets it, so it is a
  parameter; a malformed id there is not modelled.
- Products.BuildFilter: the search term is a case-insensitive literal
  substring, not a regular expression.
- ProductModel.SearchProducts: the term is matched as a case-insensitive
  literal substring, not as the regular expression the source builds from it
  (`pasta|pizza` or `^Pa` mean something else there).
- Products.SortSpecOf: ties keep their stored order (the sort is stable),
  which the database does not promise.
- Products.CategoryList: the sort is by code point, not by UTF-16 unit.
- Products.ListProducts: the echoed `filters` object of the reply is not
  modelled.
- Products.UpdateProduct: the order of the update validators' messages
  follows the schema order.
- ProductModel.ProductErrorsEmpty: the nutrition minimums and the trim of
  ingredient elements are not modelled.
- OrderModel.OrderDocument.SaveExisting: `createdAt` of a loaded document is
  kept as it was; the `updatedAt` timestamp is not modelled.
- AuthRoutes.UpdateProfile: the reply's success message is not modelled, and
  the address merge is shallow over the three schema keys only.
- AuthRoutes.Me: the 500 reply for an id that cannot be cast is not modelled.
- AuthRoutes.Register and AuthRoutes.Login: their 500 replies are unreachable
  in the model (the email is checked before the insert, and a login save
  cannot fail), so they are not stated.
- Mailer.SendMail: the wait is returned as a number of milliseconds; no time
  passes.
- Mailer.SendStatusUpdate: the subject uses the corrected lookup
  `Mailer.StatusInfoOf`. As written, a status named like an inherited object
  member (`toString`) gives an `undefined undefined` subject; see
  "## Findings".
- OrderStats.SortKeyOf: the order listings sort by `createdAt`, `subtotal`,
  `tax`, `deliveryFee`, `totalAmount`, `status`, `orderType` and
  `orderNumber`. Any other `sortBy` (`_id`, `userId`, `paymentStatus`,
  `paymentMethod`, `requestedTime`, `updatedAt`, a nested path) makes every
  order tie, so the stored order is kept. Ties keep their stored order on
  every key, which the database does not promise.
- OrderStats.OrderLeIsPreorder, OrderStats.ListSorted: they promise the
  requested order only for the sort keys named under `OrderStats.SortKeyOf`.
- Orders.FindListed: with duplicate ids, which a valid store excludes, only
  the first product with the id is looked at.
- Orders.PlaceOrder: the 500 reply for a database failure other than a cast
  or validation error is not modelled.
- Text.ToLower: only ASCII letters are folded. `toLowerCase()` and a regular
  expression's `i` flag also fold other letters (`É` to `é`), so a normalised
  email and the case-blind product search differ on such input.

## Findings

| source | as written | input that shows it | evidently intended | confidence | as-written member | corrected member |
|---|---|---|---|---|---|---|
| backend/config/nodemailer.js:252 | `statusMessages[newStatus] \|\| default` also finds members inherited from `Object.prototype` | `newStatus = "toString"` gives the subject `undefined undefined - Ordine <n>` | every status without its own entry uses the default `📋 Aggiornamento ordine` | medium, not executed | Mailer.StatusInfoAsWritten | Mailer.StatusInfoOf |
