# QR reward codes: a Dafny model of the app.js request handlers

The application issues short reward codes and lets logged-in users redeem
each code once for points. Administrators issue the codes. Users sign up
and log in by email. A listing page shows every code with the email of the
user who redeemed it.

This project models the handler logic of `app.js` over two in-memory stores:

- the User collection, a sequence in which a user's id is its position;
- the QRCode collection, a sequence in insertion order.

`App` (in `handlers.dfy`) holds both stores as fields. Each POST handler is a
method. It returns the response the handler sends: a status with its
message, a redirect, the scan JSON, a rendered page, or `Unhandled` when the
handler's promise rejects and nothing is sent. The method updates the stores
in place, as the handler's `save()` calls do. The session (`userId`, `role`)
is passed in, and login returns the new one.

The model has these files:

- `js.dfy`: the JavaScript value semantics the handlers depend on, namely truthiness, `!`, `===` and `||`.
- `qr_ids.dfy`: `generateQRCodeId` and its alphabet. Results of `Math.random()` are supplied as "draws", reals in [0, 1).
- `records.dfy`: the documents, the session and the responses. Also `findOne` on each collection, the issued-points expression, the new-code record and the points a scan credits.
- `handlers.dfy`: the `App` class with signup, login, generate, scan and the listing, and the listing's enrichment loop.
- `scenarios.dfy`: request sequences proved from the handlers' contracts alone.

Four facts about `app.js` that shape the model:

- The alphabet at app.js:47 has 59 characters. It leaves out I, i and l and keeps O, o and 0.
- Login does not check the password. Line 84 tests `!user.password === password`. Its right-hand side compares a boolean with a string, so it is always false. An existing email logs in with any string password. `App.Login`'s contract determines the response and the session from the email alone, and `Js.NotNeverStrictEqualsString` states the reason.
- Issuing a code does not make its id unique. `findOne` returns the first code with a given id, so a later duplicate can never be found by a scan (`Records.FindCodeAppend`, `Scenarios.DuplicateIdShadowed`).
- Redemption is a read followed by a separate write, not an atomic compare-and-set. The model is sequential, and in it a code is redeemed at most once.

## Model

| member | source | states |
|---|---|---|
| `Js.Truthy` | app.js:84 | exactly undefined, null, false, 0 and "" are falsy |
| `Js.Not` | app.js:84 | `!x` is always a boolean, with the opposite truthiness of x |
| `Js.StrictEquals` | app.js:84 | `===` is false for values of different types and true for identical values |
| `Js.Or` | app.js:184 | the logical or of a and b is one of its two operands, and truthy whenever b is |
| `Js.NotNeverStrictEqualsString` | app.js:84 | `!x === s` with a string `s` never holds, so the password half of the login test never rejects |
| `QrIds.DrawIndex` | app.js:50 | `Math.floor(r * n)` for a draw r in [0, 1) is an index below n |
| `QrIds.DrawIndexReaches` | app.js:50 | every index k below n is picked by some draw, namely k / n |
| `QrIds.CharFor` | app.js:50 | the character one draw picks is in the alphabet |
| `QrIds.IdFromDraws` | app.js:46-53 | the identifier built from the draws has one character per draw, each from the alphabet |
| `QrIds.IdFromDrawsAt` | app.js:49-51 | character k of the identifier is the alphabet character that draw k picks |
| `QrIds.GenerateQRCodeId` | app.js:46-53 | the loop returns exactly `length` characters, all from the alphabet, and equals the identifier the draws determine |
| `QrIds.DrawsForProduce` | app.js:46-53 | every string over the alphabet is produced by some sequence of draws, one per character |
| `QrIds.PossibleIds` | app.js:46-53 | the identifiers `generateQRCodeId(n)` can return are exactly the strings of length n over the alphabet |
| `QrIds.AlphabetShape` | app.js:47 | the alphabet has 59 characters and contains none of I, i and l |
| `Records.FindFirst` | app.js:63 | `Model.findOne({ field: value })` finds the first document whose field equals the value, and finds none exactly when no document has it |
| `Records.FindFirstAppend` | app.js:63 | saving one more document changes what `findOne` finds only when no earlier document matched |
| `Records.FindFirstUpdate` | app.js:166 | changing a document without changing the queried field does not change what `findOne` finds |
| `Records.FindUserByEmail` | app.js:63 | `User.findOne({ email })` finds the first user with that email, and finds none exactly when no user has it |
| `Records.FindCode` | app.js:166 | `findOne({ codeId })` finds the first code with that id, and finds none exactly when no code has it |
| `Records.Redeemable` | app.js:166-175 | a scan redeems exactly when some code has the id, no earlier code has it, and that code is not scanned yet |
| `Records.FindCodeAppend` | app.js:119-120 | saving one more code changes the code a scan finds for an id only when no earlier code has that id |
| `Records.FindCodeUpdate` | app.js:178-180 | marking a code as scanned does not change which code a scan finds for any id |
| `Records.IssuedPoints` | app.js:115 | an issued code's points lie in [10, 100] |
| `Records.EveryPointValueIssuable` | app.js:115 | every value in [10, 100] is the points of an issued code for some draw |
| `Records.NewQRCode` | app.js:111-116 | an issued code has a 6-character id over the alphabet, points in [10, 100], the session user as issuer, the current time, and no redeemer or redemption time |
| `Records.PointsEarned` | app.js:184 | a scan credits the code's points when they are truthy; an absent or 0 field earns the default 10; the credit is never 0 |
| `Handlers.PopulateScannedBy` | app.js:201-209 | the listing keeps every code in order and adds the redeemer's email exactly when the code is scanned and its redeemer exists |
| `Handlers.App.constructor` | app.js:30-35 | the stores start from existing documents whose emails are unique |
| `Handlers.App.Signup` | app.js:61-72 | a taken email gets 400 and leaves both stores unchanged; otherwise exactly one user with that email, role "user" and 0 points is appended and the reply redirects to /login (empty fields fail the schema and store nothing); emails stay unique |
| `Handlers.App.Login` | app.js:80-95 | 401 exactly when no user has the email, whatever the password; otherwise the session holds that user's id and role, and the reply redirects to /generate for admin and /scan otherwise; no store changes |
| `Handlers.App.Generate` | app.js:98-130 | no session user redirects to /login, and a non-admin role gets 403, both with the code store unchanged; otherwise exactly the new code is appended and the page is rendered, or 500 if encoding fails; users unchanged |
| `Handlers.App.Scan` | app.js:161-190 | an unknown id gets 404, checked first; an already scanned code gets 400; neither changes either store; otherwise the first code with the id is marked with the user and time, that user's points grow by exactly the credit, the reply reports the credit and the new total, and no other code or user changes; scanned codes never change, so the code is no longer redeemable |
| `Handlers.App.ViewQrCodes` | app.js:195-216 | the listing page holds every code in order, with an email exactly for codes whose redeemer exists; it changes nothing |
| `Scenarios.SignupThenLogin` | app.js:61-95 | after a successful signup, logging in with the same email succeeds with any password, with the session role "user" and a redirect to /scan |
| `Scenarios.SignupTwice` | app.js:63-70 | a second signup with the same email gets 400, and the store holds exactly one user for it |
| `Scenarios.IssueThenScanTwice` | app.js:106-190 | a freshly issued code scanned by a user earns exactly its points, in [10, 100], adds them to that user's total, and a second scan gets 400; afterwards the store holds one more code, with the issued id, redeemed by that user |
| `Scenarios.DuplicateIdShadowed` | app.js:166-175 | a new code whose id an earlier scanned code already has gets 400 on scan and stays unredeemed |
| `Scenarios.IssueAB12cdWorth42` | app.js:106-190 | an admin issues code AB12cd worth 42; the first scan reports 42 earned and the old total plus 42; the second scan gets 400 |

## Left out

- Express routing, static files, `res.render` views and the GET form pages (app.js:41-43, 56-58, 75-77, 144-156). This includes the redirect of `GET /scan` without a session and the fact that `GET /generate` is not protected. These are presentation only.
- The express-session middleware and `POST /logout` (app.js:9-13, 132-140). The session appears only as the `Session` value passed to the handlers.
- The Mongoose connection and the asynchronous persistence (app.js:17). The listing's 500 reply on a store failure (app.js:212-215) is left out with them. The stores are in-memory sequences.
- Mongo ObjectIds. A user's id is its position, so a malformed id (a cast error) cannot occur in the model.
- `QRCode.toDataURL` (app.js:123-129) is a foreign library. Only whether it succeeds is modelled, as the `encodingOk` parameter. The image data URL is not part of the rendered page.
- `Math.random()` and floating point (app.js:50, 115). The draws are exact reals in [0, 1), and rounding in `r * n` is not modelled. Point values and balances are integers, so NaN and fractional points are not modelled.
- `new Date()` is an opaque `Time` parameter.
- Interleaving between `await`s. Concurrent scans of one code, and lost point updates under concurrency, are outside a sequential model.
- Handlers.App.Scan: requires that when the code would be redeemed, the session names an existing user. Two crash paths are not modelled. With no user in the session, app.js:178-180 saves the code with `scannedBy` unset but `scannedAt` set, and the handler then throws at `user.points` (app.js:183-185). With a session user id that names no user, the code is saved as scanned by that id, with `scannedAt` set; `User.findById` then returns null and app.js:185 throws. The code is then spent for good and nobody is credited.
- Request bodies other than strings. With a JSON body, a boolean `false` password would make line 84's right-hand side true. An object-valued email or code id would be a query operator. Handlers.App.Login and Handlers.App.Signup take strings only.
- Mongoose's unique-index error on signup. Signup checks the email first, and without concurrency the insert never hits that index.
