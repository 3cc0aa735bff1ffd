# Water-distribution customer registry: document table and customer rules

This project models the logic of the customer-registration app in `src/App.js`, written in Dafny and verified. Field agents register customer businesses with their captured location. The registry keeps the records in `MockPouchDB`, a small in-memory document table that lives in the browser. The model covers:

- the table (`Store.MockPouchDB`): a class whose fields are the id-to-document map and the order in which the JavaScript object lists its keys;
  - `put` stores a document under its own id, or under a generated `doc_<clock>_<random>` id, with a `1-<random>` revision, and overwrites any entry already there;
  - `get` returns the document or fails with "Document not found";
  - `allDocs` lists one row per document;
  - the constructor rebuilds the table from its saved JSON members;
- the order of the listing, which follows ECMAScript's OrdinaryOwnPropertyKeys (ECMA-262, section 10.1.11.1): keys that are array indexes come first, in ascending numeric order; every other key follows in the order it was first added (`PropertyKeys`);
- the decimal and base-36 text that generated ids are built from, with a parser that reads a generated id back (`Text`, `Documents`);
- the customer rules (`Customers`, `Geolocation`):
  - capturing a location into the form, and the message shown for each failure code;
  - the record `saveCustomer` builds: type `customer`, sync status `synced` when online and `pending` when offline, counters at zero;
  - the refusal to save a form that has no location;
  - the `loadCustomers` filter, which keeps the documents of type `customer`.

The clock (`Date.now`, `new Date().toISOString()`), the random parts (`Math.random().toString(36).substr(2, 9)`), the connectivity flag and the geolocation provider's answer are parameters of the operations.

The code has no revision generations, no optimistic-concurrency failures, no change log, no conflict merging and no sync state machine. `put` always writes a first-generation revision and overwrites without any check, and the "sync" button only changes a label on timers. The model has none of them either.

## Model

| member | source | states |
|---|---|---|
| Store.Restore | src/App.js:8 | the table built from saved JSON members holds exactly the saved keys, each with the document of its last member (`LastSaved`: a repeated key keeps the last one); its key list holds the same keys, in ECMAScript property order, with the non-index keys in the order they were first seen |
| PropertyKeys.AddKeyFirstSeen | src/App.js:8 | assigning one more key keeps the non-index keys in the order they were first written, whether the key is new, repeated or an array index |
| Store.MockPouchDB.constructor | src/App.js:6-9 | opening a table gives a valid table whose entries and key order are those restored from its saved JSON, under the given name |
| Store.MockPouchDB.Put | src/App.js:11-18 | an id is kept if given (non-empty) and otherwise generated as `doc_<clock>_<random>`, without checking it against the ids already stored; the revision is always `1-<random>`, with no revision check; the entry with that id is overwritten, every other id reads as before, and `get` of the id returns the stored document; the reply is `{ok: true}` with the stored `_id` and `_rev`; the caller's document comes back with `_id`/`_rev` set; a new generated id is listed last; a table written only by `put` stays stamped (each `_id` equals its key) |
| Store.MockPouchDB.Values | src/App.js:21 | `Object.values` yields exactly the stored documents, one per id, in listing order |
| Store.MockPouchDB.AllDocs | src/App.js:20-31 | `total_rows` is the number of stored documents; one row per document in listing order; `id` and `key` are the document's `_id` and `value.rev` is its `_rev`; `doc` is present exactly when `include_docs` is set; on a stamped table the row's `id`/`key` is its key and its `rev` is first-generation |
| Store.MockPouchDB.Get | src/App.js:33-37 | succeeds exactly when the id has an entry, returning that entry, and otherwise fails with "Document not found" (the corrected lookup; see Findings) |
| Store.GetAsWritten | src/App.js:33-36 | the source's lookup: an id with an own entry returns that entry; a missing id naming an `Object.prototype` member returns the member of that name; exactly the other missing ids throw "Document not found" |
| Store.GetAsWrittenReturnsInheritedMember | src/App.js:34-35 | on a table without a "toString" document, the source's `get("toString")` returns the inherited method while the corrected `Get` fails |
| PropertyKeys.AddKeyProperties | src/App.js:15 | assigning `this.data[id]` keeps the key list duplicate-free and in property order, adds exactly `id`, leaves an existing key in place, and appends a new non-index key after the other non-index keys |
| PropertyKeys.InsertIndexKeyOrdered | src/App.js:15 | a new array-index key is placed so that array indexes stay first and strictly ascending |
| PropertyKeys.InsertIndexKeyElements | src/App.js:15 | placing an array-index key adds that key once and nothing else |
| PropertyKeys.InsertIndexKeyNonIndex | src/App.js:15 | placing an array-index key does not disturb the order of the other keys |
| PropertyKeys.DistinctCardinality | src/App.js:23 | a duplicate-free key list has as many entries as there are keys, which is why `total_rows` equals the number of stored documents |
| Text.ParseDecimalOfDecimal | src/App.js:12 | the clock reading's decimal rendering is canonical and reads back as the same number |
| Text.DecimalOfParseDecimal | src/App.js:12 | a canonical numeral is the rendering of its own value, so the rendering is one-to-one |
| Documents.GeneratedIdRoundTrip | src/App.js:12 | a generated id `doc_<now>_<suffix>` parses back to exactly its clock reading and random part |
| Documents.ParsedIdIsGenerated | src/App.js:12 | any id that parses is exactly the id its parts generate, so generated ids and their parts correspond one-to-one |
| Documents.GeneratedIdInjective | src/App.js:12 | two generated ids are equal exactly when their clock readings and random parts are equal |
| Documents.GeneratedIdIsNotIndex | src/App.js:12-15 | a generated id is never a numeral, so it never counts as an array index and is listed after existing keys |
| Geolocation.ErrorMessage | src/App.js:113-125 | PERMISSION_DENIED (1), POSITION_UNAVAILABLE (2) and TIMEOUT (3) give their own messages; exactly the other codes give "Unable to get location" |
| Geolocation.ErrorMessageNamesTheCause | src/App.js:114-125 | two failures show the same message exactly when they have the same known code, or when both codes are unknown |
| Customers.CaptureLocation | src/App.js:92-128 | no error exactly when geolocation is supported and the provider answers with coordinates; the reading then replaces the form's location wholesale (stamped with the capture time) and nothing else changes; otherwise the form, including any earlier reading, is unchanged, with the "not supported" message or the code's message |
| Customers.CustomerRecord | src/App.js:151-159 | the record has no `_id`/`_rev`; it is of type `customer`; its properties are exactly the form's plus the six record keys; the form's values are copied unchanged and its location reads back as the form's; `syncStatus` is `synced` exactly when online and `pending` exactly when offline; `balance` and `totalDeliveries` are 0 |
| Customers.CustomerDocs | src/App.js:83-85 | the list holds exactly the documents of rows whose `doc` is present and of type `customer` |
| Customers.CustomerDocsAppend | src/App.js:83-85 | filtering two parts of a listing and joining the results equals filtering the whole, so the list keeps the listing's order |
| Customers.ListingHoldsEveryDocument | src/App.js:82 | a listing with `include_docs` carries every stored document |
| Customers.ListingHoldsOnlyStoredDocuments | src/App.js:82 | a listing with `include_docs` carries only stored documents |
| Customers.LoadCustomers | src/App.js:80-90 | the customer list holds exactly the stored documents of type `customer` and is no longer than the table |
| Customers.SaveCustomer | src/App.js:142-180 | a form without a location is refused and the table is unchanged; otherwise the customer record is stored under a generated id with a first revision, `put`'s reply is `{ok: true}` with that id and revision, only that entry changes, the id is added to the key list as `put` adds it, and the reloaded customer list includes the new record; when the generated id was not yet stored, the reloaded list is the old list with the new record appended |
| Customers.ListingGrows | src/App.js:83-85 | a listing that extends another by one customer row gives the other's customer list plus that customer, last |
| Customers.NewCustomerIsListedLast | src/App.js:82-85 | after a customer is put under a new id, `loadCustomers` returns the earlier list plus the new customer at its end |

## Left out

- React rendering, JSX, hooks and page navigation. This is user interface. Setting `isGettingLocation`, clearing the form after a save and switching to the customer page are not modelled.
- Saving to `localStorage` in `put`, and `JSON.stringify`. These are I/O. A failing `setItem`, which throws after the table has already been updated, is not modelled.
- Reading `localStorage` and `JSON.parse` in the constructor. The constructor takes the already-parsed members of the saved object. Missing or empty storage corresponds to no members; malformed or non-object JSON is not modelled. Every saved member value is taken to be an object. In the source a member whose value is `null` makes `allDocs` throw when it reads `doc._id` (src/App.js:25); a number, string or boolean is listed with an undefined id; and `get` of a key whose value is falsy (`null`, `0`, `""`, `false`) fails with "Document not found". None of this is modelled.
- `Date.now`, `Math.random` and `toISOString`. They are parameters (`now`, `idSuffix`, `revSuffix`, `createdAt`, `updatedAt`, `capturedAt`). The two timestamps of a record come from two clock reads, so nothing relates them.
- The browser geolocation call and the online/offline listeners. They are external sensors and events, represented by the `supported`, `answer` and `online` parameters.
- `simulateSync`. It only changes a status label on timers.
- `alert` and `console.error` calls. They are side effects with no state.
- Floating-point formatting of coordinates. JSON numbers are Dafny reals.
- Asynchrony. Each `async` operation runs to completion, with no interleaving between concurrent saves.
- Store.MockPouchDB.Put: the table stores the document as a value. In the source it stores the caller's own object, so later changes to that object would show through the table; the app never makes such changes.
- Store.MockPouchDB.Put: an `_id` of `"__proto__"` is stored as an ordinary entry. In the source that assignment replaces the table object's prototype, and the document never appears in `allDocs` or in the saved JSON.
- Non-string ids: a non-string `_id` or `_rev` (a number, for example) is not modelled. Ids are strings or absent, and the empty string counts as absent, as in the source.
- Revision generations, conflict detection, the change log, conflict resolution and the sync state machine. The code has none of them.

## Findings

| source | as written | input that shows it | evidently intended | confidence | as-written member | corrected member |
|---|---|---|---|---|---|---|
| src/App.js:33-36 | `get` reads `this.data[id]` from a plain object and throws only when the result is falsy, so the lookup falls through to `Object.prototype` | `get("toString")` on a table with no document of that id returns the inherited `toString` function instead of throwing | every id without its own entry fails with "Document not found" | high; not executed | Store.GetAsWrittenReturnsInheritedMember | Store.MockPouchDB.Get |
