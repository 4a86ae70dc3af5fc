# lesspay-backend in Dafny

A model of the payment backend behind PaymentBuddy. It is an Express/Mongoose
service whose users own an ordered array of embedded payment transactions. The
model covers three groups of behaviour:

- **The payment lifecycle** (app.js). The gateway's `Payment_Status` code is
  mapped to a local status, and `/api/payment-status` reports it. The
  reconciliation sweep re-polls every pending transaction of every user. Link
  issuance appends a pending transaction whose `paymentTransactionId` is the
  `TransID` query parameter of the gateway's `smslink`.
- **The payment controller.** It has a second, different status mapping that
  overwrites the status on every check, and a `createPaymentLink` action.
- **The account routes** (routes/auth.js, routes/profile.js). These are
  signup, OTP verification, password reset, profile, bank and password
  updates, and direct edits of transactions.

The user schema (models/User.js) gives the datatypes. It supplies the two
status enums with their defaults, the required `amount`, the trim and
lowercase setters, and the email pattern.

The model is built as follows:

- MongoDB is a `UserStore` class holding `users: seq<User>`, and the
  controller's collection is a `TransactionCollection`.
- Each route is a pure function from the collection to an `Outcome`: the
  reply plus the collection after its saves. Each route is also a method that
  performs the same steps on the store and is proved against that function.
- The sweep is a method with the program's nested loops. It is proved equal
  to the functions `SweepUsers`/`SweepTransactions`, and the stickiness and
  abort properties are proved about those functions.
- These are parameters:
  - the gateway: a function from request to reply;
  - the clock, `now`, in milliseconds;
  - bcrypt hashes and `bcrypt.compare`;
  - OTP codes, JWTs, uuids and new ObjectIds;
  - express-validator's `isEmail`/`isNumeric`;
  - the `new URL` parse;
  - whether a mail was sent.

Mongoose behaviour that the handlers depend on is modelled explicitly:

- The `trim`/`lowercase` setters also apply to query filters, so lookups
  compare with `NormalizeEmail`.
- Strict mode drops keys that are not schema paths (`utrNumber`, `utrStatus`).
- Enum and `match` validators run on `save`.
- A path set to `undefined` reads back as its default.

The error branches differ from route to route, and the model follows each
one. For example, a missing user is a 200 with `null` in `PUT /personal` and
`PUT /bank`, but a 500 in `PUT /password` and `POST /transactions`, where
`user.password`/`user.transactions` throws.

## Model

| member | source | states |
|---|---|---|
| App.DeriveStatus | app.js:188-195 | code 1 gives completed, 2 gives pending, and every other value (by strict equality, including non-numbers) gives failed, each as an if-and-only-if |
| App.UpdatePaymentStatus | app.js:172-202 | for every reply whose `Data` rows are objects, throws exactly on a transport failure; resolves to undefined exactly when `Data` is missing or empty; otherwise maps the first row's code |
| App.PaymentStatusRoute | app.js:205-245 | a falsy id is 400 whatever the gateway says; 500 iff the fetch throws, 404 iff there is no row, 200 with the mapped status name otherwise |
| App.Poll | app.js:255-259 | a terminal transaction is returned unchanged without a call; a pending one fails iff its status call throws, and otherwise only its `paymentStatus` changes, to the mapped status or the default pending |
| App.SweepTransactions | app.js:254-261 | the inner loop keeps the number of transactions |
| App.SweepUsers | app.js:250-262 | the outer loop keeps the number of users |
| App.SweepTransactionsPointwise | app.js:254-261 | transaction j is polled iff no status call threw at or before it; the tick aborts iff some poll throws |
| App.SweepUsersPointwise | app.js:252-262 | user i is swept iff no earlier user's loop threw, otherwise left as is; the tick aborts iff some user's loop throws |
| App.SweepEffect | app.js:252-261 | every transaction after a tick is itself or its polled version; user fields other than `transactions` and the array shape are kept |
| App.SweepKeepsTerminal | app.js:255 | a completed or failed transaction leaves a tick exactly as it entered |
| App.SweepOnlyTouchesPaymentStatus | app.js:258 | a tick changes no transaction field but `paymentStatus`, and no user field but `transactions` |
| App.SweepAbandonsRest | app.js:249-265 | once the status call of a pending transaction throws, the tick aborts and that transaction and every later one, in this user and later users, is untouched |
| App.SweepCompletes | app.js:252-262 | when no status call for a pending transaction throws, the tick does not abort and every transaction is its polled version |
| App.SweepManyKeepsTerminal | app.js:248-291 | over any number of ticks, as the cron job and the interval timer repeat them, a terminal transaction keeps its place and value |
| App.SweepUser | app.js:254-261 | the inner loop on the store leaves user i with `SweepTransactions` of its array and reports whether it threw |
| App.SweepTick | app.js:248-266 | the nested loops on the store leave exactly `SweepUsers` of the loaded users, and report whether an exception ended the tick |
| App.LinkPayloadOf | app.js:104-117 | the MswipePayment request carries the body's amount, mobile number, user id, email and invoice id, the session token, and request id "REQ_" followed by the timestamp |
| App.SetFirstStatus | app.js:151-156 | assigning the status to the first transaction with the id keeps the array length |
| App.SetFirstStatusFresh | app.js:151-156 | when the pushed transaction's id is fresh, the status lands on it and the earlier transactions are untouched |
| App.SetFirstStatusRepeated | app.js:151-156 | when an earlier transaction has the same id, the status lands on an earlier one and the pushed transaction stays as pushed |
| App.IssueLink | app.js:82-170 | a link request is sent iff the token is truthy, and carries that token; a falsy token is 500 with nothing sent or saved; 404 iff the user is missing after a link reply, with nothing saved; 200 carries the smslink; any change is to that one user, who gains exactly one transaction; a transaction is pushed iff a link reply arrives, the user exists, the `smslink` parses and the subdocument validates; 200 iff it was pushed and the status fetch did not throw |
| App.IssueLinkRecords | app.js:128-157 | whenever the push is saved, the new transaction has the link, its `txn_id`, the `TransID` of the link as `paymentTransactionId`, the body's amounts, a pending transfer status and `createdAt` now; if the status fetch throws, the push stays as saved with payment status pending; on a 200 with a fresh id, its payment status is the fetched one and earlier transactions are untouched |
| App.GeneratePaymentLinkRoute | app.js:82-170 | the steps on the store (push and save, status fetch, assignment and save) leave exactly what `IssueLink` describes |
| Url.QueryOf | app.js:129 | the query never contains the fragment; a link without `?` has an empty query |
| Url.SplitOn | app.js:129 | every piece is free of the separator |
| Url.JoinSplit | app.js:129 | joining the pieces gives back the query |
| Url.SplitJoin | app.js:129 | splitting joined separator-free pieces gives back the pieces |
| Url.QueryGet | app.js:129-130 | `get` finds a value iff some non-empty piece carries the name, and the value is that of the first such piece |
| Url.TransIdRoundTrip | app.js:128-130 | a link `base?TransID=v&...` yields `v`, whatever parameters follow |
| Url.TransIdAbsent | app.js:128-130 | a link without a query yields null |
| MswipeGateway.GenerateToken | services/mswipe.service.js:14-31 | succeeds iff the reply's status is "true", with its token; otherwise it throws "Token generation failed: " followed by the transport error or the reply's `msg` |
| MswipeGateway.GeneratePaymentLink | services/mswipe.service.js:33-61 | succeeds iff the reply's status is "True", with its `txn_id` and `smslink`; otherwise it throws "Payment link generation failed: " followed by the transport error or the reply's `responsemessage` |
| MswipeGateway.CheckTransactionStatus | services/mswipe.service.js:63-79 | succeeds iff the status is "True" and `Data` is present; the result is `Data[0]`, undefined for an empty `Data`; otherwise it throws "Transaction status check failed: " followed by the transport error, the service's own message, or the TypeError of indexing a missing `Data` |
| UserModel.ParseStatus | models/User.js:27-37 | exactly "pending", "completed" and "failed" are accepted, each as the status of that name |
| UserModel.ParseStatusName | models/User.js:27-37 | every status survives the round trip through its name |
| UserModel.NormalizeEmail | models/User.js:84-87 | the stored email is the trimmed input with every character lowercased, so never longer than the input |
| UserModel.NormalizeEmailIdempotent | models/User.js:84-87 | applying the trim and lowercase setters twice is applying them once |
| UserModel.EmailPatternOneAt | models/User.js:88 | an accepted email has exactly one `@`, neither first nor last |
| UserModel.EmailPatternAccepts | models/User.js:88 | `local@host.tld` is accepted for word-character parts and a TLD of 2 to 4 characters |
| UserModel.EmailPatternRefusesLongTld | models/User.js:88 | a last label of 5 or more characters is refused |
| UserModel.CastStatus | models/User.js:27-37 | an undefined status takes the default pending; a string must name a status |
| UserModel.MakeTransaction | models/User.js:3-42 | the subdocument validates iff `amount` is present, both statuses cast and the normalized email is empty or matches (the `match` validator passes ""); it then carries the given fields, the normalized email, and the client's `_id`/`createdAt` or else the new id and now, and no amount is always `AmountRequired` |
| UserModel.MakeTransactionDefaults | models/User.js:27-37 | with neither status given, both start pending, independently |
| UserModel.NewUser | models/User.js:51-91 | the defaults: unverified, `phoneNumber` "", role "User", trimmed or empty `fullName`, no bank details, no transactions, normalized email |
| Text.Trim | models/User.js:81 | the result is the slice of the input left after cutting only JavaScript whitespace from both ends, and has none at either end |
| Text.TrimIdempotent | routes/profile.js:47 | the validator's `trim()` followed by the schema's trim is one trim |
| Text.ToLowerIdempotent | models/User.js:87 | lowercasing twice is lowercasing once |
| Text.NatToString | app.js:113 | the rendering of a timestamp is non-empty decimal digits |
| Text.DecimalRoundTrip | app.js:113 | the decimal rendering reads back as the same number |
| Text.NatToStringInjective | app.js:113 | different timestamps give different request ids |
| Store.FirstIndex | app.js:151-153 | the index found satisfies the predicate and no earlier element does; none is found iff no element does |
| Store.FindByEmail | routes/auth.js:90 | the user found has the normalized email; none is found iff no user has it |
| Store.FindById | routes/profile.js:95 | the user found has the id; none is found iff no user has it |
| Store.FindByPaymentId | app.js:151-153 | the first transaction with that `paymentTransactionId` |
| Store.EmailsUniqueUpdate | routes/auth.js:414 | replacing a user by one with the same email keeps emails unique |
| Store.WithTransaction | routes/auth.js:469-472 | replaces one transaction of one user and nothing else |
| Auth.IssueOtp | routes/auth.js:96-98 | an OTP expires ten minutes (600000 ms) after issue |
| Auth.CheckOtp | routes/auth.js:171-181 | the OTP is accepted iff present with a code, not strictly past expiry, and equal to the code sent; the guards fire in that order |
| Auth.OtpValidThroughLifetime | routes/auth.js:175 | a code is accepted at the exact expiry instant and refused one millisecond later |
| Auth.Signup | routes/auth.js:80-144 | validation failures and an existing email change nothing; a user is added iff all checks and the save pass, and it is the default new user with a ten-minute OTP; 201 iff added and mailed |
| Auth.SignupKeepsEmailsUnique | routes/auth.js:90-93 | signup never lets two users share an email |
| Auth.Verified | routes/auth.js:184-185 | sets `isVerified` and clears `otp`; no other field changes |
| Auth.VerifyOtp | routes/auth.js:147-198 | validation, then user missing, already verified, OTP missing, expired and wrong code, in that order, each changing nothing; success verifies that user and clears the OTP |
| Auth.VerifyOtpChangesOnlyTheUser | routes/auth.js:162-186 | the collection changes only on success, only for the user found, who was unverified |
| Auth.VerifyOtpOneShot | routes/auth.js:167-169 | verifying again after a success answers "User already verified" |
| Auth.SignupThenVerify | routes/auth.js:96-112 | a user just signed up verifies with the mailed code at any time within ten minutes |
| Auth.ForgotPassword | routes/auth.js:201-244 | validation or a missing user changes nothing; otherwise a fresh ten-minute OTP replaces the old one and stays even if the mail fails |
| Auth.ResetPassword | routes/auth.js:297-353 | the same guards without the verified check, each changing nothing; success stores the new hash and clears the OTP |
| Auth.ResetTwiceFails | routes/auth.js:323-342 | a second reset with the same code is "OTP not found. Please request a new one." |
| Auth.ForgotThenReset | routes/auth.js:218-342 | a reset with the code forgot-password issued succeeds within ten minutes |
| Auth.UpdateProfile | routes/auth.js:397-448 | no email is 400 and an unknown email 404, both changing nothing; otherwise only truthy fields overwrite (`fullName` trimmed), `bankDetails` is replaced when given, and other users are untouched |
| Auth.UpdateProfileKeepsEmailsUnique | routes/auth.js:407-414 | `user.email = email` rewrites the matched value, so emails stay unique |
| Auth.FindByTxnId | routes/auth.js:463 | the first transaction with that `txn_id` |
| Auth.UpdateTransactions | routes/auth.js:451-500 | a missing user or transaction is 404 and a status outside the enum 500, each changing nothing; otherwise only the first matching transaction's transfer status is set |
| Auth.UpdateTransactionsTouchesOneField | routes/auth.js:463-472 | whatever the request, no user or transaction field other than one transfer status changes |
| Auth.PaymentCallback | routes/auth.js:384-394 | answers `{status: "success"}` and touches nothing (the method has no modifies clause) |
| Auth.SignupRoute | routes/auth.js:80-144 | the steps on the store leave what `Signup` describes |
| Auth.VerifyOtpRoute | routes/auth.js:147-198 | the steps on the store leave what `VerifyOtp` describes |
| Auth.ForgotPasswordRoute | routes/auth.js:201-244 | the steps on the store leave what `ForgotPassword` describes |
| Auth.ResetPasswordRoute | routes/auth.js:297-353 | the steps on the store leave what `ResetPassword` describes |
| Auth.UpdateProfileRoute | routes/auth.js:397-448 | the steps on the store leave what `UpdateProfile` describes |
| Auth.UpdateTransactionsRoute | routes/auth.js:451-500 | the steps on the store leave what `UpdateTransactions` describes |
| Profile.IfscSurvivesTrim | routes/profile.js:117 | a code the IFSC pattern accepts is left as is by the `trim()` before it |
| Profile.IfscRejectsLowercase | routes/profile.js:117 | a lowercase letter anywhere is refused |
| Profile.IfscParts | routes/profile.js:117 | four capitals, "0", six capitals or digits is accepted, and any other fifth character refused |
| Profile.UpdatePersonal | routes/profile.js:45-81 | a blank trimmed name or an invalid email is 400, an email held by another user is 400 "Email already in use", both changing nothing; 200 iff neither applies; then a found caller gets exactly the trimmed `fullName` and normalized email, and a missing one is 200 "null" with nothing changed |
| Profile.UpdatePersonalKeepsEmailsUnique | routes/profile.js:59-74 | with unique ids, the personal update never lets two users share an email |
| Profile.UpdatePersonalOwnEmail | routes/profile.js:59-65 | re-sending one's own email is accepted |
| Profile.UpdatePassword | routes/profile.js:84-110 | the password changes only when the old one matches, and then to the new hash; a matching old password (with valid fields and a found user) is 200 with exactly that change; a wrong one is 400; a missing user is 500 |
| Profile.UpdateBank | routes/profile.js:113-137 | invalid fields are 400 with no change; valid ones are 200, and then a found user has `bankDetails` replaced whole with the four trimmed fields, while a missing one is 200 "null" with nothing changed |
| Profile.UpdateBankStoresValidIfsc | routes/profile.js:117-128 | every stored IFSC code matches the pattern, before and after the update |
| Profile.AddTransaction | routes/profile.js:175-196 | a subdocument is created iff validation passes (a missing amount fails `isNumeric`), the user exists and the schema accepts it; it is then appended and returned, otherwise nothing changes |
| Profile.AddTransactionAppendsOne | routes/profile.js:188-191 | the array grows by exactly one, keeps its prefix, and the answer is its last element |
| Profile.AddTransactionSuccessRefused | routes/profile.js:180 | "success" passes the route's check but not the schema's enum, so nothing is saved |
| Profile.FindTransaction | routes/profile.js:241 | `transactions.id()`: the transaction with that `_id` |
| Profile.UpdateTransaction | routes/profile.js:229-256 | a change sets only `paymentStatus` of the matching transaction; an unknown one is 404 |
| Profile.UpdateTransactionAccepts | routes/profile.js:231-249 | for an existing transaction, the update succeeds iff the status is "pending" or "failed" |
| Profile.UpdatePersonalRoute | routes/profile.js:45-81 | the steps on the store leave what `UpdatePersonal` describes |
| Profile.UpdatePasswordRoute | routes/profile.js:84-110 | the steps on the store leave what `UpdatePassword` describes |
| Profile.UpdateBankRoute | routes/profile.js:113-137 | the steps on the store leave what `UpdateBank` describes |
| Profile.AddTransactionRoute | routes/profile.js:175-196 | the steps on the store leave what `AddTransaction` describes |
| Profile.UpdateTransactionRoute | routes/profile.js:229-256 | the steps on the store leave what `UpdateTransaction` describes |
| PaymentController.MapCode | controllers/payment.controller.js:67-69 | 1 gives success, 0 failed, 3 expired, every other value pending, each as an if-and-only-if |
| PaymentController.MappingsAgreeExactlyOn | controllers/payment.controller.js:67-69 | the two mappings name the same outcome iff the code is 0, 1 or 2; 3 is failed in app.js but expired here |
| PaymentController.FindRecord | controllers/payment.controller.js:59 | the record with that id |
| PaymentController.CheckStatus | controllers/payment.controller.js:55-81 | an unknown id is 404; the service's failure is its exact message as 500; a found row overwrites status and `mswipeResponse` |
| PaymentController.CheckStatusNotSticky | controllers/payment.controller.js:64-72 | a record already at success takes whatever the gateway now reports |
| PaymentController.CheckStatusUnknownIgnoresGateway | controllers/payment.controller.js:59-62 | for an unknown id the outcome does not depend on the gateway |
| PaymentController.CheckStatusRoute | controllers/payment.controller.js:55-81 | the steps on the collection leave what `CheckStatus` describes |
| PaymentController.OrderId | controllers/payment.controller.js:26 | "ORD" followed by digits that read back as the timestamp |
| PaymentController.LinkRequestDropsPhone | controllers/payment.controller.js:24 | as written, the request never carries a mobile number |
| PaymentController.LinkRequest | controllers/payment.controller.js:22-28 | the corrected request carries `phoneNumber`, the email, the order id, the request id and the token |
| PaymentController.CreatePaymentLinkAsWrittenNeverSucceeds | controllers/payment.controller.js:2-12 | as written, the action is always 500 "User is not defined", with no token request, no link request and no save |
| PaymentController.CreatePaymentLink | controllers/payment.controller.js:7-53 | unknown user is 404 before the token call; 200 iff a link request was sent and succeeded; only then is one record appended, with status created and the request id that was sent; a failing token or link call answers 500 with that service's message |
| PaymentController.CreatePaymentLinkSameRequestId | controllers/payment.controller.js:21-39 | the stored request id is the one sent, and the invoice id is "ORD" and the timestamp |
| PaymentController.CreatePaymentLinkCanSucceed | controllers/payment.controller.js:12-49 | with the user in scope, a known user, a good token and a good link reply give 200 and a request with the user's phone number |
| PaymentController.CreatePaymentLinkRoute | controllers/payment.controller.js:7-53 | the steps on the collection leave what `CreatePaymentLink` describes |

## Left out

- The login route (routes/auth.js:28-77), `/send-email`, `GET /users` and the
  profile's `GET` routes only read data or sign tokens. They are not modelled.
  The same holds for `/api/generate-token` (app.js:60-79), which forwards the
  gateway's reply.
- The second `/verify-otp` registration (routes/auth.js:247-294) is shadowed
  by the first one on the same path, which always responds, so only the first
  is modelled.
- The cron job and the interval timer (app.js:248, 272) run the same tick
  concurrently. Only single ticks, and ticks in sequence, are modelled.
- The `auth` middleware is not part of this model. The user it authenticates
  is the parameter `userId`.
- Persistence is an in-memory sequence. JavaScript `null` and `undefined` are
  both `None`. This makes `App.SetFirstStatus` diverge from the program for a
  link without a `TransID`. `get` then returns `null`, and
  `txn.paymentTransactionId === transID` (app.js:151-153) does not match an
  earlier transaction whose `paymentTransactionId` is undefined. The program
  therefore updates the transaction just pushed. The model matches the
  earlier one, the `App.SetFirstStatusRepeated` case.
- Other Mongoose cast errors (non-numeric amounts, malformed ObjectIds) are
  not modelled, except the body `id` of the link route
  (`LinkRequestBody.id` is `None`) and the transaction id of
  `PUT /transactions/:id`.
- `POST /transactions` keeps a client-supplied `_id` and `createdAt`
  (`TxnFields.id`, `TxnFields.createdAt`). They are taken as already cast: an
  id that is not an ObjectId, or a date string, is not modelled.
- `Auth.VerifyOtp` and `Auth.ResetPassword` take the body's `otp` as a string.
  A JSON number such as 123456 passes the length check, because
  express-validator stringifies it. It then never equals the stored string
  code, so the answer is "Invalid OTP". The model cannot express a
  non-string `otp`.
- `App.UpdatePaymentStatus`: a `Data` array whose first element is `null`
  makes the destructuring at app.js:185 and app.js:225 throw. That is a 500
  in the status route and an abort in the sweep. `StatusRow` cannot be null,
  so the model does not capture this case.
- The saves of the update routes are assumed to pass validation, except for
  enum failures and the new subdocument's own paths. By default `save()`
  validates every path of the document, not only the modified ones, and the
  model does not capture that:
  - `Profile.UpdatePersonal` writes the email with `findByIdAndUpdate`
    (routes/profile.js:67), which runs no validators. It can therefore store an
    email that `isEmail` accepts but the schema's pattern refuses, such as
    "a+b@c.com".
  - Every later `save()` of that user then fails. That covers `App.SweepUser`
    and `App.SweepTick` (the save at app.js:259 throws, so the tick ends and
    later users are skipped), `App.IssueLink`, and `Auth.VerifyOtp`,
    `Auth.ForgotPassword`, `Auth.ResetPassword`, `Auth.UpdateProfile`,
    `Auth.UpdateTransactions`, `Profile.UpdatePassword`,
    `Profile.AddTransaction` and `Profile.UpdateTransaction`. The model lets
    those saves succeed.
- `App.IssueLink`: an undefined body `id` is treated like one that does not
  cast. Mongoose may instead strip it from the filter.
- `Auth.UpdateTransactions`: the body's `email` is assumed present. An
  undefined email in the filter is not modelled.
- Amounts are integers. JavaScript numbers are floating point.
- The lowercase setter is ASCII-only.
- `URLSearchParams` percent-decoding and `+` as space are not modelled, and
  the `new URL` parse is the parameter `isUrl`.
- `setMinutes(getMinutes() + 10)` is taken as exactly 600000 ms. A
  daylight-saving change within those minutes is not modelled.
- `App.IssueLink` uses one `now` for the request id and for the new
  subdocument's `createdAt`. The source reads the clock twice.
- Reply bodies are reduced to a status code and one message. JSON objects
  returned on success (users, tokens, the gateway's data) are represented by
  an empty message, by "null", or by the token or link itself.
- Mail and SMS (services/email.js, services/sms.js) are the `mailSent`
  parameter.
- bcrypt, jsonwebtoken, otp-generator and uuid are parameters. The controller's `Transaction` model file
  is not part of this model: only the fields the controller reads and writes
  are kept, and its `save` is assumed to succeed.

## Findings

| source | as written | input that shows it | evidently intended | confidence | as-written member | corrected member |
|---|---|---|---|---|---|---|
| controllers/payment.controller.js:2-12 | `User.findById` is called, but `User` is never required in the controller | any request to `createPaymentLink` | `require('../models/User')` so the user lookup runs and a link can be issued | high, not executed | PaymentController.CreatePaymentLinkAsWrittenNeverSucceeds | PaymentController.CreatePaymentLinkCanSucceed |
| controllers/payment.controller.js:24 | `phone: user.phone` reads a path the user schema does not define | a user with `phoneNumber` "9876543210" | `phone: user.phoneNumber`, so the gateway receives the mobile number | medium, not executed | PaymentController.LinkRequestDropsPhone | PaymentController.LinkRequest |
