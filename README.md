# Record store and REST routes of a blockchain-infrastructure site

This project models, in Dafny, the server core of a marketing site for a
blockchain-infrastructure provider: the in-memory record store `MemStorage`
(services, networks, contact submissions and invoices, each in an
insertion-ordered `Map` from id to record) and the REST handlers that validate a
request, call the store and turn the outcome into an HTTP status and a JSON body.

- `wrappers.dfy` — `Option` (a TypeScript value that may be `undefined`/`null`,
  with `GetOr` for `??`) and `Result` (returned or thrown).
- `ordered_map.dfy` — module `OrderedMaps`: the JavaScript `Map` as the store uses
  it (`get`, `set`, `size`, `Array.from(values())`, and `forEach(set)` over a
  list). `Put` overwrites an existing key where it stands and appends a new one.
- `schema.dfy` — module `Schema`: the four record types, their insert shapes, the
  pay request, and the pay-request validator (three required strings).
- `storage.dfy` — module `Storage`: the class `MemStorage` with one `OrderedMap`
  field per collection, its seed data, and `FirstWithNumber`, the lookup that
  `getInvoiceByNumber` performs. The store keeps the invariant that every record
  is stored under its own id (`Valid`).
- `routes.dfy` — module `Routes`: one outcome-to-response function per route and
  the handlers over the store.
- `scenarios.dfy` — a client that follows one invoice from creation to payment,
  proved from the store's contracts only.

The id supply (`randomUUID`) and the clock (`new Date()`) are parameters: every
create receives the id and clock reading it would draw. No freshness is assumed.
An id that is already in use is overwritten in place, as `Map.set` does. The
contracts say what happens in both cases; the "count grows by one" facts are
stated for a fresh id.

The invoice table definition in shared/schema.ts promises more than the in-memory
store enforces, and the model follows the store:

- The invoice-number column is declared `.unique()` (shared/schema.ts:37), but the
  store does not check it. `createInvoice` stores a second invoice with a number
  already in use. `getInvoiceByNumber` and `payInvoice` then
  keep finding the older one. `CreateInvoice` and `FirstWithNumberAppend` state
  this.
- An invoice's `status` is a free string column; "pending", "paid" and "failed" are
  only named in a comment (shared/schema.ts:41). A client may create
  an invoice as "paid" or "failed". Paying never checks the old status, so a paid
  invoice is paid again and its wallet, transaction and payment time are
  overwritten.

## Model

| member | source | states |
|---|---|---|
| `Storage.MemStorage.constructor` | server/storage.ts:33-40 | starts with no contacts and no invoices, at most 3 services and 5 networks; with distinct seed ids, exactly the three default services and the five default networks, in that order |
| `Storage.MemStorage.InitializeData` | server/storage.ts:42-89 | builds the default services and networks from the drawn ids and clock reading; the services map ends up as the default services set one by one under their ids, then the networks likewise; contacts and invoices untouched |
| `Storage.DefaultServices` | server/storage.ts:44-75 | three seed services, carrying the supplied ids and clock reading |
| `Storage.DefaultNetworks` | server/storage.ts:80-86 | five seed networks, all supported, carrying the supplied ids and clock reading |
| `Storage.MemStorage.GetServices` | server/storage.ts:92-94 | one entry per stored service, in insertion order of their ids, each a stored record |
| `Storage.MemStorage.GetService` | server/storage.ts:96-98 | present exactly when a service is stored under the id; then it is that service, with that id |
| `Storage.MemStorage.CreateService` | server/storage.ts:100-111 | omitted price becomes null and omitted popularity false; other fields copied; stored under the new id, appended when the id is fresh; other collections unchanged |
| `Storage.MemStorage.GetNetworks` | server/storage.ts:114-116 | one entry per stored network, in insertion order, each a stored record |
| `Storage.MemStorage.GetNetwork` | server/storage.ts:118-120 | present exactly when a network is stored under the id; then it is that network |
| `Storage.MemStorage.CreateNetwork` | server/storage.ts:122-132 | omitted support flag becomes true; stored under the new id, appended when fresh; other collections unchanged |
| `Storage.MemStorage.GetContacts` | server/storage.ts:135-137 | one entry per stored contact, in insertion order, each a stored record |
| `Storage.MemStorage.CreateContact` | server/storage.ts:139-148 | all fields copied, id and creation time assigned; appended when the id is fresh; other collections unchanged |
| `Storage.MemStorage.GetInvoices` | server/storage.ts:151-153 | one entry per stored invoice, in insertion order, each a stored record |
| `Storage.MemStorage.GetInvoice` | server/storage.ts:155-157 | present exactly when an invoice is stored under the system id; then it is that invoice |
| `Storage.FirstWithNumber` | server/storage.ts:160-162 | absent exactly when no invoice in the list has the number; otherwise an invoice of the list with that number |
| `Storage.FirstWithNumberAt` | server/storage.ts:160-162 | the invoice found is the one at the first index holding the number |
| `Storage.FirstWithNumberIndex` | server/storage.ts:160-162 | whatever is found stands at an index before which no invoice has the number |
| `Storage.MemStorage.GetInvoiceByNumber` | server/storage.ts:159-163 | the first invoice in insertion order whose number matches; absent exactly when none matches |
| `Storage.FirstWithNumberAppend` | server/storage.ts:165-177 | adding an invoice never hides an earlier one with the same number; the new one is found by its number only when no earlier one has it |
| `Storage.MemStorage.CreateInvoice` | server/storage.ts:165-178 | status "pending" unless given, wallet address and transaction hash null unless given, paidAt null, id and createdAt assigned; exactly one entry set under the id, appended when fresh; other collections unchanged |
| `Storage.ReplaceStoredInvoice` | server/storage.ts:194 | setting a stored invoice's own id replaces that invoice where it stands and no other |
| `Storage.MemStorage.PayInvoice` | server/storage.ts:180-196 | fails with "Invoice not found" exactly when no invoice has the number, and then changes nothing; otherwise returns the first such invoice marked "paid" with the payment's wallet and hash and a payment time, id, number, amount, currency and createdAt kept, stored back under its id with the count unchanged and no guard on the old status |
| `OrderedMaps.OrderedMap.Put` | server/storage.ts:176 | afterwards the key maps to the value and every other key is as before; the size grows by one exactly when the key was new |
| `OrderedMaps.PutFreshAppends` | server/storage.ts:176 | setting a new key appends its value at the end of the values |
| `OrderedMaps.PutAtIndex` | server/storage.ts:194 | setting an existing key replaces the value at its position and nothing else |
| `OrderedMaps.ValuesAreEntries` | server/storage.ts:152 | the values list holds exactly the stored values |
| `OrderedMaps.PutEachKeys` | server/storage.ts:77 | setting a list of records under their own keys keeps every record under its own key, adds no key but theirs and grows the map by at most their number |
| `OrderedMaps.PutEachFresh` | server/storage.ts:88 | setting records with distinct new keys appends them all, in order |
| `Schema.ParsePayInvoice` | shared/schema.ts:68-72 | accepts exactly the bodies whose three fields are strings and passes them on unchanged; a rejected body yields at least one issue |
| `Schema.ParsePayInvoiceReports` | shared/schema.ts:68-72 | a rejected body has an issue for each field that is missing or not a string, and for no other field |
| `Routes.ServicesResponse` | server/routes.ts:9-16 | 200 with the list exactly when the store returned; 500 "Failed to fetch services" otherwise |
| `Routes.ServiceResponse` | server/routes.ts:18-28 | 404 "Service not found" exactly when the store returned absent; 200 with the service when present; 500 only when something was thrown |
| `Routes.GetServiceRoute` | server/routes.ts:20-24 | 404 exactly when no service has the id, 200 with that stored service otherwise; never 500 |
| `Routes.NetworksResponse` | server/routes.ts:31-38 | 200 with the list exactly when the store returned; 500 otherwise |
| `Routes.ContactResponse` | server/routes.ts:41-52 | 400 with the issues exactly for a validation error, 200 with the confirmation on return, 500 otherwise; never 404 |
| `Routes.PostContact` | server/routes.ts:43-50 | a rejected body answers 400 with the issues and leaves the store unchanged; an accepted one is answered 200 with "Contact form submitted successfully" and the contact built from the parsed fields, the new id and the clock reading, which is what is set under the id; other collections unchanged |
| `Routes.InvoicesResponse` | server/routes.ts:55-62 | 200 with the list exactly when the store returned; 500 otherwise |
| `Routes.InvoiceResponse` | server/routes.ts:64-74 | 404 "Invoice not found" exactly when the lookup returned absent; 200 with the invoice when present; 500 only when something was thrown |
| `Routes.GetInvoiceRoute` | server/routes.ts:66-70 | 404 exactly when no stored invoice has the number, else 200 with the first one that has it |
| `Routes.CreateInvoiceResponse` | server/routes.ts:76-87 | 400 with the issues exactly for a validation error, 200 with the invoice on return, 500 otherwise; never 404 |
| `Routes.PostInvoice` | server/routes.ts:78-85 | a rejected body answers 400 with the issues and leaves the store unchanged; an accepted one is answered 200 with the invoice built from the parsed fields (status "pending" unless given, wallet and hash null unless given, never paid, the new id and the clock reading), which is what is set under the id; other collections unchanged |
| `Routes.PayResponse` | server/routes.ts:94-101 | 400 exactly for a validation error, 404 exactly for an Error whose message is "Invoice not found" (echoed), 200 on return, 500 for everything else |
| `Routes.PostPayInvoice` | server/routes.ts:89-103 | 400 exactly when the body fails validation, store untouched; 404 exactly when the number is unknown, invoices untouched; 200 with the paid invoice otherwise; never 500 |
| `Routes.StatusResponse` | server/routes.ts:106-124 | always 200 with the same snapshot: 1247 delegators, 15 networks, 50 validators, "100%" health, "99.9%" uptime |
| `Routes.GetServicesRoute` | server/routes.ts:9-13 | always 200 with exactly the stored services, in insertion order |
| `Routes.GetNetworksRoute` | server/routes.ts:31-34 | always 200 with exactly the stored networks, in insertion order |
| `Routes.GetInvoicesRoute` | server/routes.ts:55-58 | always 200 with exactly the stored invoices, in insertion order |

## Left out

- Express, `http.createServer`, JSON serialisation and the async `Promise`
  wrapping are I/O plumbing. A handler is modelled as a call that returns a
  `Response`.
- `randomUUID` and `new Date()` are not modelled. Ids and clock readings are
  parameters, so the model says nothing about a payment time being later than the
  creation time. All eight seed records share one clock reading.
- The insert schemas for contacts and invoices are generated by a library from the
  table definitions. Their parse result is an input of `PostContact` and
  `PostInvoice`: rejected (with its issues) or accepted (with the parsed record).
- `Schema.ParsePayInvoice`: the pay validator's "received" type in its message is
  not modelled. A field that is not a string yields the message "Expected string".
  Keys outside the schema cannot be expressed in a `PayBody`.
- Decimal prices and amounts have no numeric meaning here. They are the strings the
  client sent.
- The `.unique()` constraint on the invoice-number column belongs to the database
  schema, which this in-memory store does not enforce. It is not a store invariant.
- The client-side React components and the wallet provider are UI and foreign
  browser wallet calls, outside this model.
