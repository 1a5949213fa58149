# Hotel room booking server: a verified model of its decision logic

The server (`index.js`) is an Express application over three MongoDB
collections: `users`, `rooms` and `bookings`. Most of it is glue around
MongoDB, JWT cookies, Stripe and nodemailer. This project models the logic
inside the route handlers and proves properties about it:

- the role guards `verifyAdmin` and `verifyHost`;
- the asymmetric user save of `PUT /user` and the admin merge of
  `PATCH /user/update/:email`;
- the room category filter and the queries scoped by host or guest email;
- setting a room's `booked` flag, storing a booking and cancelling a booking;
- the statistics of `/admin-stat`, `/host-stat` and `/guest-stat`;
- the price check of `/create-payment-intent`.

The store is modelled as a `Store` class (module `Server`). Its fields are
sequences, so the collections' natural order (the order `find` returns) is
part of the model. `findOne`, `updateOne` and `deleteOne` act on the first
match (`Collections.FirstMatch`). `find(query)` is `Collections.Filter`.

Users are untyped JSON documents (`Documents.Doc`, a map from field name to
`Value`), because `PUT /user` and `PATCH /user/update/:email` spread the
request body into `$set`. A missing field reads as `Null`. The driver stores
`undefined` as null, and an equality query on null also matches documents
without the field, so `{ email: undefined }` matches users with no email.
Rooms and bookings are records with the fields the handlers read or write;
a room's `booked` field may be absent (`None`).
Ids are opaque strings. Unique ids within a collection (MongoDB's `_id`
index) are the store invariant `Store.Valid`.

Inputs that come from outside the code are parameters:

- the email decoded from the verified token (`caller`);
- `Date.now()` (`now`);
- the booking's day of the month and zero-based month, already split out of
  its date;
- prices, as integers.

The guards as written reject only a missing record. The evident intent is
to reject unless the record exists and holds the role (see Findings). The
guarded routes take the guard's reading as a parameter
(`Guards.Reading`: `AsWritten` or `Corrected`), so both what the server does
and what it evidently means to do are stated and proved.

Some one-expression helpers carry no contract of their own and have no row:
`Users.IsStatusRequest`, `Stats.Point`, `Stats.TimestampOf` and
`Guards.OptionalRole`. The members that use them state what they mean.

`Server.BookingLifecycle` is a walk-through rather than a specified
operation: it stores a booking, checks that it shows in its guest's and its
host's lists, cancels it, and checks that it is gone from both.

## Model

| member | source | states |
|---|---|---|
| `Collections.Filter` | index.js:245 | `find(query)` returns every stored element that matches the query and no other, in store order (a subsequence of the collection) |
| `Collections.FilterMultiset` | index.js:245 | each matching document is returned as many times as it is stored; non-matching ones never |
| `Users.FindUser` | index.js:171-174 | `findOne({ email })` gives the first user whose email equals the query value, or none when no user has it |
| `Users.Stamped` | index.js:222-227 | the `$set` fields are every payload field plus Timestamp, and the server's clock overrides a Timestamp in the payload |
| `Users.NewUser` | index.js:188-200 | the inserted user holds the query's email, every payload field, and the server's Timestamp, which overrides a Timestamp in the payload |
| `Users.Save` | index.js:168-202 | no record: one user is appended with the whole payload and a Timestamp, and is then found by its email. Record and status "Requested": only that record's `status` changes; `modifiedCount` is 0 exactly when it already was "Requested". Record otherwise: the collection is unchanged and the existing record is returned |
| `Users.SaveIdempotent` | index.js:176-185 | saving the same payload twice leaves the collection as after the first save; the second call returns the stored record, or acknowledges a status write that modified nothing |
| `Users.Update` | index.js:217-229 | the first user with the path's email gets every payload field and a new Timestamp, keeps every other field, and no other user changes; `modifiedCount` is 1 exactly when that user changed, else 0; with no such user nothing changes and nothing is matched |
| `Users.SignUpRequestPromote` | index.js:176-228 | a new guest, then a status request, then an admin role change leave one record with role "host", status "Requested" and the last Timestamp |
| `Guards.CallerRecord` | index.js:103-105 | the guard's lookup finds a record exactly when some user holds the caller's email; the record is the first stored user with that email |
| `Guards.AsWrittenRejects` | index.js:106-107 | the test `!result && result?.role !== role` is true exactly when there is no record |
| `Guards.AsWrittenRejectsOnlyUnknownCallers` | index.js:111-117 | the guard as written rejects exactly the callers with no user record |
| `Guards.AsWrittenAdmitsWrongRole` | index.js:115-116 | a stored caller without the required role passes the guard as written and fails the corrected one |
| `Guards.GuestPassesAdminGuard` | index.js:106-107 | a stored guest passes `verifyAdmin` as written, and the admin update then sets that guest's own role to "admin" |
| `Guards.Passes` | index.js:102-118 | as written, a guard lets through exactly a caller with a record; corrected, exactly a caller whose record holds the role |
| `Guards.Admits` | index.js:115-116 | the corrected guard passes exactly a caller whose record exists and holds the role |
| `Guards.AdmitsExactlyStoredRole` | index.js:102-118 | the corrected guard passes exactly when the first user with the caller's email has the role |
| `Listings.RoomsByCategory` | index.js:240-247 | an absent, empty or "null" category returns all rooms; any other returns exactly the rooms of that category, in store order |
| `Listings.RoomsOfHost` | index.js:249-254 | exactly the rooms whose `host.email` is the email, in store order |
| `Listings.BookingsOfHost` | index.js:320-326 | exactly the bookings whose `host.email` is the email, in store order |
| `Listings.BookingsOfGuest` | index.js:329-334 | exactly the bookings whose `guest.email` is the email, in store order |
| `Listings.SetBooked` | index.js:308-317 | only the `booked` field of the room with that id changes, and it is present afterwards, holding the status (null for a request without one); every other room and field is kept, and ids stay distinct |
| `Listings.WithoutBooking` | index.js:337-342 | after cancelling, every booking with another id is kept in store order and none with that id remains |
| `Listings.RemoveFirstIsWithout` | index.js:339-340 | with distinct ids, `deleteOne` on the first match removes exactly one booking and equals removing every booking with the id |
| `Listings.BookingVisibleUntilCancelled` | index.js:289-342 | a stored booking is appended to its guest's my-bookings and its host's manage-bookings; after cancelling it, neither list holds a booking with its id |
| `Stats.Label` | index.js:359 | a label is the day's digits, one slash, then the month's digits, each part non-empty |
| `Stats.NatToString` | index.js:359 | a number's label text is non-empty decimal digits with no leading zero |
| `Stats.LabelRoundTrip` | index.js:359 | a `day/month` label reads back as the day and month it was built from |
| `Stats.LabelInjective` | index.js:359 | distinct (day, month) pairs get distinct labels |
| `Stats.FifthOfJanuary` | index.js:357-359 | the 5th of January, month index 0, is labelled "5/0" |
| `Stats.ChartPoints` | index.js:356-361 | one point per booking, in store order, with the booking's label and price |
| `Stats.TotalPrice` | index.js:367-370 | the left fold of the scoped prices from 0; `TotalPriceFromFront`, `ChartSumIsTotalPrice` and `TotalPricePartition` are about it |
| `Stats.TotalPriceFromFront` | index.js:367-370 | folding the prices from the left equals taking the first price plus the total of the rest |
| `Stats.TotalPriceConcat` | index.js:367-370 | the total of two booking lists, one after the other, is the sum of their totals |
| `Stats.TotalPriceNonNegative` | index.js:367-370 | with no negative price the total is never negative |
| `Stats.ChartSumIsTotalPrice` | index.js:356-370 | the prices plotted in a chart add up to the total price |
| `Stats.TotalPricePartition` | index.js:367-370 | the revenue of a scope plus that of its complement is the revenue of all bookings |
| `Stats.Chart` | index.js:356-363 | the chart has one row more than there are bookings; row 0 is the header and row i+1 is booking i's label and price |
| `Stats.AdminStat` | index.js:344-378 | counts of all users and rooms; `totalBookings` is the number of bookings; the chart has the "Day","Sales" header and one point per booking; `totalPrice` is the sum of prices, equal to the chart's sum |
| `Stats.HostStat` | index.js:380-417 | the same over the caller's bookings as host, with system-wide user and room counts and the caller's Timestamp; `totalBooking` is the size of the manage-bookings query |
| `Stats.GuestStat` | index.js:419-444 | the caller's bookings as guest with the "day","sales" header, their count, the sum of their prices and the caller's Timestamp |
| `Stats.AdminStatRoute` | index.js:344-378 | the admin figures are sent exactly to a caller the `verifyAdmin` reading lets through; everyone else gets Bad Access |
| `Stats.HostStatRoute` | index.js:380-417 | the host figures, with the Timestamp of the caller's first record, are sent exactly to a caller the `verifyHost` reading lets through; everyone else gets Bad Access |
| `Stats.GuestStatRoute` | index.js:419-444 | no role guard; a caller with a record gets the guest figures with the Timestamp of their first record; a caller without one gets nothing from the handler (destructuring null throws) |
| `Stats.AsWrittenStatRoutesServeStoredCallers` | index.js:102-118 | behind the guards as written, every stored caller, whatever their role, is sent the admin figures and the host figures; only an unknown caller gets Bad Access |
| `Stats.StatRoutesRejectOtherRoles` | index.js:102-118 | behind the corrected guards, every caller that is missing or holds another role gets Bad Access from the admin and host statistics |
| `Stats.HostShareOfAdminStat` | index.js:380-417 | a host's revenue plus that of all other bookings is the admin's total revenue, and its count is at most the admin's |
| `Payments.CreatePaymentIntent` | index.js:151-165 | no response when the price is missing or below 1; otherwise the provider is asked for 100 times the price in cents, in "usd" |
| `Server.Store.SaveUser` | index.js:168-202 | the users collection becomes what `Users.Save` gives; rooms and bookings are unchanged; ids stay distinct |
| `Server.Store.UpdateUserRole` | index.js:212-231 | when the `verifyAdmin` reading lets the caller through, the users collection becomes what `Users.Update` gives; a rejected caller changes nothing and gets Bad Access. As written, that lets any stored user through |
| `Server.Store.SaveBooking` | index.js:289-305 | a booking with a new id is appended and its guest and host, in that order, are notified; an already used id changes nothing and notifies no one |
| `Server.Store.UpdateRoomStatus` | index.js:308-317 | the rooms become `SetBooked` of the old rooms; `modifiedCount` is 0 exactly when the room already held `booked` with that value and 1 otherwise, so adding a missing `booked` field, even as null, counts as a modification |
| `Server.Store.CancelBooking` | index.js:337-342 | the bookings become `WithoutBooking` of the old ones; one booking is deleted exactly when one had the id; with no such booking nothing is deleted and the bookings are unchanged; at most one is ever deleted |

## Left out

- Request bodies and user documents are flat: every field has a plain name and a scalar value (null, a boolean, an integer or a string). Dotted field names, which `$set` reads as paths into embedded documents, nested objects, arrays, fractional numbers, and the driver's errors on clashing paths (after which the handler sends nothing) are not modelled; `Users.NewUser`, `Users.Save` and `Users.Update` write every key as a top-level field and never fail.

- JWT signing and verification, cookies, CORS and routing (index.js:19-27, 68-82, 121-148): the verified email is a parameter, and a token is assumed to carry an email.
- `sendEmail` and nodemailer (index.js:30-65): only the two recipients of `POST /bookings`, in order, are recorded. Delivery is fire-and-forget I/O.
- The Stripe call (index.js:156-164): only the charge that would be requested is modelled. The client secret comes from an external service.
- MongoDB connection, ping and `ObjectId` construction (index.js:84-99, 447): ids are opaque strings. The exception `new ObjectId` throws on a malformed id is not modelled.
- Date parsing with `getDate`/`getMonth` (index.js:357-358): bookings carry the day and zero-based month.
- Payments.CreatePaymentIntent: prices are integers. JavaScript's `parseInt` truncation of fractional prices and the NaN of a non-numeric price (which passes the check) are not modelled.
- Stats.TotalPrice: prices are integers. JavaScript's string concatenation for a string price, and `undefined` arithmetic for a missing one, are not modelled.
- Server.Store.SaveBooking: an insert with a duplicate `_id` is modelled as a `DuplicateKey` reply with no change. In the server the driver throws and nothing is sent.
- The `_id` field of user documents is not modelled, so neither is the error of a payload that tries to `$set` it.
- A repeated `category` query parameter (an array) is not modelled; the category is a string or absent.
- The routes outside the core: `GET /user/:email`, `GET /users`, `POST /room`, `PUT /room/update/:id`, `DELETE /roomDelete/:id` and `GET /room/:id`. Each is a single store call.
- The field projection of the admin and host statistics queries (index.js:349-352): it only drops fields the statistics do not read.
- Concurrent requests and double booking: every operation is one atomic step on the store.
- Stats.StatRoutesRejectOtherRoles: states the rejection of the corrected guards only. Behind the guards as written, every stored caller passes (`Stats.AsWrittenStatRoutesServeStoredCallers`, see Findings).
- Stats.AdminStatRoute: the reading of `verifyAdmin` is a parameter. With `Guards.AsWritten` it is the server's behaviour; with `Guards.Corrected` it is the evident intent.
- Stats.HostStatRoute: the reading of `verifyHost` is a parameter, in the same way as for the admin route.
- Server.Store.UpdateUserRole: the reading of `verifyAdmin` is a parameter, in the same way as for the statistics routes.
- Stats.GuestStatRoute: a caller without a record is `NoResponse`. What the client then sees (an unhandled rejection or a status 500) depends on the Express and Node versions, which the server does not pin.

## Findings

| source | as written | input that shows it | evidently intended | confidence | as-written member | corrected member |
|---|---|---|---|---|---|---|
| index.js:106 | `if (!result && result?.role !== "admin")` rejects only when no user record exists, since the second test is always true then; line 115 does the same for "host" | the stored user `{ email: "g@x.com", role: "guest" }` passes `verifyAdmin`, and `PATCH /user/update/g@x.com` with `{ role: "admin" }` then makes that user an admin | `!result \|\| result?.role !== "admin"`: reject unless the record exists and holds the role | high; not executed | `Guards.GuestPassesAdminGuard` | `Guards.Admits` |
