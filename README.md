# Hostel finder — a verified model of its core

This project models the logic at the core of the hostel-finder web application (a Next.js
front end over a MySQL `hostels` table) and proves properties of that model.

- **Public search route** (`app/api/hostels/route.ts`), in module `HostelsRoute`.
  - GET reads five URL parameters with their defaults.
  - It builds a parameterised query clause by clause. The query text is modelled as a sequence of clause tokens, each standing for a fixed SQL fragment, and the values go into a separate parameter list.
  - It runs the query through a given `execute` function and shapes the rows.
  - POST binds the fourteen form fields to the fourteen columns of an INSERT. It re-reads the new row and answers 201 with it.
  - Any failure gives a single 500 reply.
- **Row shaping** (module `RowShaping`), used by both listing routes:
  - the numeric id becomes its decimal string;
  - the stored availability becomes a boolean;
  - the amenities and images columns are read whether the driver returns a list, JSON text or NULL;
  - the image falls back to `/placeholder.svg`.
- **Admin listing route** (`app/api/admin/hostels/route.ts`), module `AdminHostelsRoute`.
- **Client search** (`api/hostels.ts`), module `SearchClient`:
  - the `SearchFilters` become five URL parameters;
  - the model states what the route makes of them;
  - a non-ok response is an error.
- **JSON lists and decimal ids** (modules `Json`, `Decimal`): a concrete encoder and parser for lists of strings, and `toString` for non-negative integer ids. Both round trips are proved.
- **Add-hostel form** (`components/add-hostel-form.tsx`), module `HostelForm`:
  - class `AddHostelForm` holds `formData`, `errors` and `newAmenity`;
  - it models required-field validation, submission gating, per-field error clearing, the amenity toggle/add/remove and image removal by index;
  - `trim()` and "blank" are defined over the ECMAScript whitespace set in module `Text`.
- **Hostel management table** (`components/hostel-management-table.tsx`), module `ManagementTable`:
  - the selection of ids, driven by the row checkboxes and the select-all header;
  - the header's checked rule;
  - the available count.
- **Login form** (`hostel-finder-login.tsx`), module `Login`:
  - email-shape and password-length validation;
  - the loading flag around a login;
  - per-field error clearing.
- **Admin panel** (`admin-panel.tsx`), module `AdminPanel`:
  - the hostel list, add-form flag and loading flag around the add and delete requests;
  - the occupancy-rate expression.

Effects are passed in as parameters: the database (`execute`, `insert`, `select`), `fetch`, the confirmation dialog and the outcome of each awaited request. Component state is held by classes whose methods update the fields the handlers update.

Where the documentation and the code differ, the model follows the code. The listing routes give an empty image list stored as JSON text (`"[]"`) the image `undefined`, not the placeholder (`RowShaping.StoredEmptyImagesHaveNoImage`). The create route does fall back to the placeholder (`HostelsRoute.CreatedImage`).

## Model

| member | source | states |
|---|---|---|
| Text.Trim | components/add-hostel-form.tsx:68 | `s.trim()` is never longer than `s` |
| Text.TrimEmptyIffBlank | components/add-hostel-form.tsx:68 | `s.trim()` is empty exactly when every character of `s` is whitespace |
| Text.TrimmedEmpty | components/add-hostel-form.tsx:68 | `!s.trim()` holds exactly when `s` is blank |
| Text.TrimStartSpec | components/add-hostel-form.tsx:106 | the leading trim keeps a suffix, removes only whitespace and leaves no leading whitespace; it is empty iff the string is blank |
| Text.TrimEndSpec | components/add-hostel-form.tsx:106 | the trailing trim keeps a prefix, removes only whitespace and leaves no trailing whitespace; it is empty iff the string is blank |
| Text.TrimIsInfix | components/add-hostel-form.tsx:106 | `trim()` returns a slice of the string whose removed ends are blank |
| Text.TrimmedEnds | components/add-hostel-form.tsx:106 | a non-empty trimmed string starts and ends with a non-whitespace character |
| Lists.RemoveAll | components/add-hostel-form.tsx:115 | the value is gone, nothing new appears, every other element survives, and the list gets no longer |
| Lists.RemoveAllAppend | components/add-hostel-form.tsx:115 | filtering distributes over concatenation, so the kept elements stay in order |
| Lists.RemoveAllAbsent | components/add-hostel-form.tsx:115 | filtering out an absent value leaves the list unchanged |
| Lists.RemoveAllKeepsNoDuplicates | components/add-hostel-form.tsx:115 | filtering keeps a duplicate-free list duplicate-free |
| Lists.Toggle | components/add-hostel-form.tsx:99-101 | after the toggle the value is present iff it was absent, and every other element is kept, with none added |
| Lists.ToggleAbsentAppends | components/add-hostel-form.tsx:99-101 | toggling an absent value appends it at the end |
| Lists.ToggleTwiceRestores | components/hostel-management-table.tsx:38 | toggling an absent value twice gives the original list back |
| Lists.ToggleKeepsNoDuplicates | components/hostel-management-table.tsx:38 | toggling keeps a duplicate-free list duplicate-free |
| Lists.DropIndex | components/add-hostel-form.tsx:142 | the list shrinks by one exactly when the index is in range |
| Lists.DropIndexSpec | components/add-hostel-form.tsx:139-144 | an in-range index removes exactly that element; any other index leaves the list unchanged |
| Lists.CountWhere | components/hostel-management-table.tsx:52 | the filtered count is at most the length, with equality iff every element passes |
| Json.Encode | app/api/hostels/route.ts:102-103 | `JSON.stringify` of a string list is bracketed text |
| Json.Decode | app/api/hostels/route.ts:53-54 | `JSON.parse` succeeds only on text that, after leading whitespace, opens with `[` |
| Json.RawControlRejected | app/api/hostels/route.ts:53-54 | a raw line break inside a string literal makes the parse fail |
| Json.ControlWrittenAsUnicodeEscape | app/api/hostels/route.ts:102-103 | a control character without a short escape is written as `\u00xx` |
| Json.UnicodeEscapeRead | app/api/hostels/route.ts:53-54 | `\u0041` reads as `A` |
| Json.SurrogatePairRead | app/api/hostels/route.ts:53-54 | a surrogate pair of `\u` escapes reads as the one character it encodes |
| Json.RoundTrip | app/api/hostels/route.ts:126-127 | parsing the stored JSON text of a list gives back the same list in the same order |
| Json.EncodeInjective | app/api/hostels/route.ts:102-103 | different lists are stored as different texts |
| Decimal.NatToString | app/api/hostels/route.ts:47 | `id.toString()` is a non-empty string of decimal digits with no leading zero |
| Decimal.NatRoundTrip | app/api/hostels/route.ts:47 | reading the decimal id string back gives the id |
| Decimal.NatToStringInjective | app/api/hostels/route.ts:47 | distinct ids have distinct string forms |
| HostelsRoute.Truncate | app/api/hostels/route.ts:10-11 | `parseInt` of a numeral rounds toward zero |
| HostelsRoute.ReadFilters | app/api/hostels/route.ts:9-13 | a missing or empty parameter takes its default (`""`, 0, 10000, 0, `""`); present values are read with `parseInt` or `parseFloat` |
| HostelsRoute.ClausesFor | app/api/hostels/route.ts:15-42 | the price clause always comes first and the ORDER BY always last; each optional clause is present exactly when its flag is set |
| HostelsRoute.SearchParams | app/api/hostels/route.ts:25-40 | the parameter list is aligned with the query: one value per `?`, the value that placeholder stands for, in order |
| HostelsRoute.BuildSearchQuery | app/api/hostels/route.ts:15-42 | the step-by-step build gives the clause sequence for the active filters and an aligned list of 2 to 5 parameters whose first two are `[minPrice, maxPrice]` |
| HostelsRoute.AlignedUnique | app/api/hostels/route.ts:25-40 | for a given query text only one parameter list is aligned |
| HostelsRoute.HoldsAligned | app/api/hostels/route.ts:22-40 | with aligned parameters the bound WHERE condition is the conjunction of each clause's intended meaning |
| HostelsRoute.HoldsRejectsMiscount | app/api/hostels/route.ts:44 | a parameter list whose length differs from the number of `?` is rejected |
| HostelsRoute.SearchSelectsMatches | app/api/hostels/route.ts:22-40 | the query the handler sends selects exactly the rows the filters describe: price in range, location (unless empty or "all"), rating floor (when positive) and type (when non-empty) |
| HostelsRoute.ListingReply | app/api/hostels/route.ts:44-63 | 200 with one shaped record per row in row order exactly when the query succeeds and every row shapes; otherwise a single 500 with "Failed to fetch hostels" |
| HostelsRoute.HandleGet | app/api/hostels/route.ts:5-64 | the reply is the listing for what `execute` returns on the query and parameters built from the request |
| HostelsRoute.InsertParams | app/api/hostels/route.ts:95-110 | fourteen parameters for fourteen columns and fourteen placeholders |
| HostelsRoute.InsertColumnsDistinct | app/api/hostels/route.ts:89-91 | the INSERT names every column once |
| HostelsRoute.InsertBindsColumn | app/api/hostels/route.ts:88-110 | each column receives the form field it is named after, with amenities and images JSON-encoded |
| HostelsRoute.InsertStoresForm | app/api/hostels/route.ts:88-112 | the row the INSERT creates holds the form's fields under the new id |
| HostelsRoute.CreatedImage | app/api/hostels/route.ts:126 | the created record always has a non-empty image: the first stored image whenever it is non-empty, otherwise the placeholder |
| HostelsRoute.CreatedHostel | app/api/hostels/route.ts:119-131 | the record fails exactly when the stored images or amenities do not parse; otherwise the id is the decimal string, availability is `!= 0`, reviews is `reviews_count`, the amenities are the parsed list, the image is the first parsed image or the placeholder, and the other fields are copied |
| HostelsRoute.HandlePost | app/api/hostels/route.ts:67-137 | the reply is 201 or the single 500 "Failed to create hostel"; 201 only after a successful insert |
| HostelsRoute.CreateRoundTrip | app/api/hostels/route.ts:112-131 | when the store keeps the inserted row, the 201 record carries the new id, the form's fields, the amenities as sent and the first image or the placeholder |
| RowShaping.ListOf | app/api/hostels/route.ts:54 | the list read fails exactly when the column is non-empty text that does not parse |
| RowShaping.ImageOf | app/api/hostels/route.ts:53 | the image read fails exactly when the list read of the same column fails |
| RowShaping.ShapeRow | app/api/hostels/route.ts:46-58 | a row shapes unless a list column fails to decode; the id is the decimal string, availability is `!= 0`, reviews is `reviews_count`, and the other fields are copied |
| RowShaping.ShapeRows | app/api/hostels/route.ts:46-58 | all rows shape or none: one record per row, in row order |
| RowShaping.ShapeRowsAppend | app/api/hostels/route.ts:46 | shaping maps over concatenation, so the output follows the row order |
| RowShaping.OneBadRowFailsAll | app/api/hostels/route.ts:46-63 | one undecodable row anywhere fails the whole list |
| RowShaping.IdReadsBack | app/api/hostels/route.ts:47 | the public id parses back to the row id |
| RowShaping.AmenitiesCases | app/api/hostels/route.ts:54 | a list column passes through, non-empty text is decoded, and NULL or empty text gives `[]` |
| RowShaping.ImageIsFirstOfList | app/api/hostels/route.ts:53 | an absent column gives the placeholder; otherwise the image is the first element of the same list the amenities rule reads, and fails when that list fails |
| RowShaping.EncodedColumnsReadBack | app/api/hostels/route.ts:53-54 | a column written by the encoder reads back as the list written, and the image as its first element |
| RowShaping.StoredEmptyImagesHaveNoImage | app/api/hostels/route.ts:53 | an empty stored image list gives `undefined`, not the placeholder |
| AdminHostelsRoute.AdminGet | app/api/admin/hostels/route.ts:4-37 | 200 with every row shaped, or the single 500 "Failed to fetch hostels" |
| AdminHostelsRoute.AdminListsEveryRow | app/api/admin/hostels/route.ts:18-30 | one record per row, in row order, each the shape of its row |
| AdminHostelsRoute.AdminMatchesSearch | app/api/admin/hostels/route.ts:18-30 | for the same rows the admin route answers exactly as the public search route |
| AdminHostelsRoute.AdminOneBadRow | app/api/admin/hostels/route.ts:33-35 | one undecodable row gives a single 500 and never a partial list |
| SearchClient.OrEmpty | api/hostels.ts:6 | the `""` fallback for a falsy text leaves every string as it is |
| SearchClient.SearchQuery | api/hostels.ts:5-11 | exactly five parameters: location, minPrice, maxPrice, rating, type, in that order |
| SearchClient.Get | app/api/hostels/route.ts:9 | `get` finds nothing iff no parameter has the name, and otherwise answers a value sent under that name |
| SearchClient.ReceivedQuery | api/hostels.ts:5-11 | every parameter the client sends arrives in its slot on the route |
| SearchClient.ClientServerAgree | app/api/hostels/route.ts:9-13 | the route reads the client's location, rating and type unchanged and both price bounds truncated, with no check that min is at most max |
| SearchClient.ClientFiltersActive | app/api/hostels/route.ts:27-40 | the location clause is used iff the client's location is neither "" nor "all", the type clause iff the type is non-empty, the rating clause iff the rating is positive |
| SearchClient.DatesNeverSent | api/hostels.ts:5-11 | `checkIn` and `checkOut` do not affect what is sent |
| SearchClient.SearchHostels | api/hostels.ts:4-20 | a non-ok response gives the error "Failed to search hostels"; otherwise the response's list |
| HostelForm.WithField | components/add-hostel-form.tsx:92 | writing a field sets that field and leaves every other field as it was |
| HostelForm.Problem | components/add-hostel-form.tsx:68-74 | only the seven validated fields can fail, and a failure carries a non-empty message |
| HostelForm.ValidationErrors | components/add-hostel-form.tsx:66-77 | every recorded message belongs to a validated field and is the message of the rule that field broke |
| HostelForm.CheckedAt | components/add-hostel-form.tsx:68-74 | each validation step looks at one of the seven validated fields |
| HostelForm.ErrorsUpToSpec | components/add-hostel-form.tsx:66-74 | after each step, every recorded message is its field's own, and every checked failing field has one |
| HostelForm.ErrorsMeaning | components/add-hostel-form.tsx:66-74 | a field carries a message exactly when it fails its rule, and the message is that rule's |
| HostelForm.NoProblemIffRequiredFilled | components/add-hostel-form.tsx:68-74 | no validated field fails exactly when the five texts are non-blank and price and capacity are positive |
| HostelForm.NoErrorsIffNoProblem | components/add-hostel-form.tsx:77 | the error record is empty exactly when no validated field fails |
| HostelForm.ValidIffRequiredFilled | components/add-hostel-form.tsx:65-77 | the form validates iff name, location, description, contact email and address are non-blank and price and capacity are positive |
| HostelForm.ErrorMessages | components/add-hostel-form.tsx:68-74 | only validated fields carry messages; name, price and capacity carry theirs exactly when blank or not positive |
| HostelForm.OptionalFieldsIgnored | components/add-hostel-form.tsx:68-74 | phone, policies, the times, type, amenities and images never change the validation outcome |
| HostelForm.FreshFormFails | components/add-hostel-form.tsx:45-74 | a fresh form fails on the five required texts and on the price, but not on the capacity |
| HostelForm.ClearError | components/add-hostel-form.tsx:93-95 | the field's message goes, and every other message stays |
| HostelForm.WithCustomAmenity | components/add-hostel-form.tsx:105-110 | the list is unchanged, or the trimmed entry is appended when it is non-blank and not yet listed |
| HostelForm.CustomAmenityKeepsNoDuplicates | components/add-hostel-form.tsx:105-110 | adding a custom amenity keeps a duplicate-free list duplicate-free |
| HostelForm.CollectErrors | components/add-hostel-form.tsx:66-74 | the seven checks, run in order, build exactly the validation error record |
| HostelForm.AddHostelForm.constructor | components/add-hostel-form.tsx:45-63 | the initial form data, no messages and an empty amenity input |
| HostelForm.AddHostelForm.ValidateForm | components/add-hostel-form.tsx:65-78 | replaces the messages with the validation record and answers true iff the required fields are filled; the data is unchanged |
| HostelForm.AddHostelForm.HandleSubmit | components/add-hostel-form.tsx:80-89 | the data is handed on only when it validates |
| HostelForm.AddHostelForm.HandleInputChange | components/add-hostel-form.tsx:91-96 | sets the one field and clears only that field's message |
| HostelForm.AddHostelForm.ToggleAmenity | components/add-hostel-form.tsx:98-103 | the amenities become their toggle, clearing only the amenities message |
| HostelForm.AddHostelForm.SetNewAmenity | components/add-hostel-form.tsx:385 | sets the custom-amenity input, nothing else |
| HostelForm.AddHostelForm.AddCustomAmenity | components/add-hostel-form.tsx:105-110 | appends the trimmed input and empties it when it is non-blank and not yet listed; otherwise nothing changes |
| HostelForm.AddHostelForm.RemoveAmenity | components/add-hostel-form.tsx:112-117 | drops every copy of the amenity, keeping the rest in order |
| HostelForm.AddHostelForm.RemoveImage | components/add-hostel-form.tsx:139-144 | drops the image at the index (nothing when out of range); messages stay |
| ManagementTable.Ids | components/hostel-management-table.tsx:33 | one id per hostel, in list order; an id is listed exactly when some hostel carries it |
| ManagementTable.AvailableCount | components/hostel-management-table.tsx:50-52 | the Available count never exceeds the Total, and equals it iff every hostel is available |
| ManagementTable.HeaderChecked | components/hostel-management-table.tsx:74 | selecting every listed id checks the header |
| ManagementTable.HeaderCheckedIffAllSelected | components/hostel-management-table.tsx:74 | for a valid selection over distinct ids, the length-based header check holds iff every hostel is selected |
| ManagementTable.StaleSelectionChecksHeader | components/hostel-management-table.tsx:74 | a stale selection of the right length checks the header while a listed hostel is unselected |
| ManagementTable.ToggleKeepsSelectionValid | components/hostel-management-table.tsx:37-39 | toggling a listed id keeps the selection duplicate-free and made of listed ids |
| ManagementTable.HostelManagementTable.constructor | components/hostel-management-table.tsx:27 | the selection starts empty |
| ManagementTable.HostelManagementTable.HandleSelectAll | components/hostel-management-table.tsx:29-35 | clears a selection as long as the list, otherwise selects every id in order; the header flips, except over an empty list |
| ManagementTable.HostelManagementTable.HandleSelectHostel | components/hostel-management-table.tsx:37-39 | the selection becomes its toggle with the id |
| Login.EmailShapedUnanchored | hostel-finder-login.tsx:33 | the email pattern is unanchored: text around a match keeps it matching |
| Login.EmailShaped | hostel-finder-login.tsx:33 | a matching email has at least five characters, an `@` and a `.` |
| Login.ShortestEmailShaped | hostel-finder-login.tsx:33 | `a@b.c` matches |
| Login.SpaceBeforeAtNotShaped | hostel-finder-login.tsx:33 | ` @b.c` does not match |
| Login.EmailError | hostel-finder-login.tsx:31-35 | "required" iff empty, "valid email" iff non-empty and not matching, no message iff matching |
| Login.PasswordError | hostel-finder-login.tsx:37-41 | "required" iff empty, "at least 6" for one to five characters, no message from six on |
| Login.LoginForm.constructor | hostel-finder-login.tsx:17-26 | empty fields, no messages, not loading |
| Login.LoginForm.ValidateForm | hostel-finder-login.tsx:28-45 | sets both messages and answers true iff both are empty, that is, iff the email matches and the password has at least six characters |
| Login.LoginForm.BeginLogin | hostel-finder-login.tsx:47-51 | the loading flag goes up only when validation passes |
| Login.LoginForm.FinishLogin | hostel-finder-login.tsx:54 | the loading flag goes down and nothing else changes |
| Login.LoginForm.HandleInputChange | hostel-finder-login.tsx:62-67 | sets the one field and empties only that field's message |
| AdminPanel.RemoveById | admin-panel.tsx:67 | filtering by id never lengthens the list |
| AdminPanel.RemoveByIdMembers | admin-panel.tsx:67 | after the delete no hostel has the id, and every hostel with another id remains |
| AdminPanel.RemoveByIdAppend | admin-panel.tsx:67 | filtering by id distributes over concatenation, so the kept hostels keep their order |
| AdminPanel.RemoveByIdAbsent | admin-panel.tsx:67 | no hostel with the id: the list is unchanged |
| AdminPanel.RemoveByIdIdempotent | admin-panel.tsx:67 | a second delete of the same id changes nothing |
| AdminPanel.AddThenDeleteRestores | admin-panel.tsx:51-67 | deleting a just-added hostel with a fresh id gives back the earlier list |
| AdminPanel.Round | admin-panel.tsx:131 | `Math.round` gives the integer within one half of its argument |
| AdminPanel.OccupancyRate | admin-panel.tsx:131 | 0 when there are no hostels (no division); otherwise the available share as a rounded percentage |
| AdminPanel.OccupancyIsPercentage | admin-panel.tsx:131 | with no more available hostels than hostels, the rate is between 0 and 100 |
| AdminPanel.Panel.constructor | admin-panel.tsx:14-16 | empty list, form closed, not loading |
| AdminPanel.Panel.BeginAdd | admin-panel.tsx:48 | the loading flag goes up |
| AdminPanel.Panel.CompleteAdd | admin-panel.tsx:49-59 | on success the new hostel is appended and the form closes; on failure the list and form are unchanged and the error is rethrown; the loading flag goes down either way |
| AdminPanel.Panel.HandleDeleteHostel | admin-panel.tsx:62-72 | nothing changes unless confirmed; after a successful request the id is filtered out; a failed request leaves the list as it was |

## Left out

- `lib/mysql.ts`: the connection pool is process configuration. The database is a parameter (`execute`, `insert`, `select`) of the handlers.
- The actual row filtering and `ORDER BY` sorting are done by MySQL. The model gives only a reference predicate (`HostelsRoute.Matches`) for the WHERE condition, with no collation or type coercion, and says nothing about the order of the returned rows.
- `Number.parseInt` / `Number.parseFloat` on non-numeric text (NaN): a numeric parameter is empty or a numeral denoting a real value. Stored `price` and `rating` are taken as already-parsed numbers.
- Floating point: prices, ratings and the occupancy share are reals. `Number.prototype.toString` of a number is not modelled; a number travels as its value.
- JSON is limited to arrays of strings. Any other JSON value (an object, a number, `null`, a nested array) is treated as a parse failure.
- `Json.Decode`: a `\u` escape for a lone surrogate is rejected, because a Dafny string cannot hold one; `JSON.parse` accepts it.
- `Json.Encode`: a lone surrogate cannot occur in a Dafny string, so the `\udxxx` output `JSON.stringify` gives for one is not modelled.
- `api/admin-hostels.ts`: its `fetch` wrappers are represented only by the request outcome handed to `Panel.CompleteAdd` and `Panel.HandleDeleteHostel`.
- `app/api/admin/stats/route.ts` and `loadStats` / `loadHostels` in `admin-panel.tsx`: the statistics are aggregates computed by MySQL. The occupancy rate takes them as inputs.
- `AdminPanel.Panel.CompleteAdd`: the stats refresh after a successful add is not modelled. `loadStats` (`admin-panel.tsx:38-45`) logs and swallows its own failure, so the refresh changes nothing the model tracks.
- `handleImageUpload`: FileReader callbacks are asynchronous browser I/O. `setTimeout` in the login, the social-login stubs, `console` output and all JSX rendering are left out too.
- `checkIn` / `checkOut`: collected but never sent; the model only shows that they do not affect the request.
- `HostelForm.AddHostelForm.HandleInputChange`: setting an error to `undefined` is modelled as removing the key. Nothing reads the two differently.
- The async handlers (`handleAddHostel`, `handleLogin`) are split at their `await` into two methods each (`BeginAdd`/`CompleteAdd`, `BeginLogin`/`FinishLogin`). Interleavings with other handlers are not modelled.
- `HostelForm.AddHostelForm.HandleSubmit`: a rejection from `onSubmit` is logged and swallowed, which changes no state; the model returns the data handed to `onSubmit`.
- `Login.PasswordError`: a password's length counts characters, not UTF-16 code units.
- `HostelsRoute.InsertStoresForm`: the store is assumed to keep each bound value as given, except that the capacity is rounded to its integer column (`HostelsRoute.StoredInt`). Column width limits and other conversions by MySQL are not modelled.
- `HostelsRoute.InsertPlaceholders`: the fourteen `?` of the VALUES list (`app/api/hostels/route.ts:92`) are transcribed as a constant, not counted from the query text.
- `HostelsRoute.HandlePost`: it takes an already well-typed `HostelFormData`. A malformed request body makes `await request.json()` throw, and a missing field binds `undefined`, which the driver refuses (`app/api/hostels/route.ts:69-86`). Both end in the same 500 reply, which the model does not derive from the body. A mistyped field is passed on to MySQL unchecked.
- `SearchClient.SearchHostels`: `fetch` always yields a response. A rejected `fetch` and a failing `response.json()` (`api/hostels.ts:13-19`) are not modelled; both would reject the returned promise.
