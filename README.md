# Customer CRUD — a verified model

This project models the customer-database application: an Express/MongoDB
server that stores customer records, and a React client that lists, filters,
selects, adds, edits and deletes them.

**Server.**
- The store is a class that owns an id-to-record map.
- The five request handlers are methods on that class. Each returns a status code and a JSON payload.
- The route table is a dispatch function. The application-level pipeline is a method: the root and health endpoints, the router mounted under `/api/v1/customers`, and the catch-all 404.

**Client.**
- The HTTP layer is a function from a call to the request it issues. Form encoding is a loop over key/value entries. Batch delete is an all-or-error fold.
- The query cache is a class holding the cached list and a stale flag.
- The form is a class holding field values, errors, the image error and a loading flag. The schema is a per-field validator with an independent bounds predicate.
- The table's helpers are functions: filter, truncate and initials. Its row selection is a class.
- The form wrapper and the page are methods that sequence those state changes.

Inputs the source gets from elsewhere are parameters:
- `outage` says whether the database call throws;
- `newId` is the id the database generates;
- `now` is the clock;
- `isEmail` is zod's email test;
- `succeeds(id)` says whether a per-id delete request succeeds, and `ok(i)` whether the i-th add request succeeds;
- `succeeded` says whether a mutation succeeded.

Modules follow the source files:
- `CustomerModel` (model.js);
- `CustomerController` (controller), `CustomerRoutes` (router), `ServerApp` (index.js);
- `CustomerApi` (customerAPI.js), `UseCustomers` (useCustomers.js);
- `CustomerForm`, `CustomerTable`, `CustomerFormWrapper`, `CustomersPage`.

Plus small shared modules: `Optional`, `Http`, `ClientValues` (JS values and browser files) and `Text` (ASCII casing and substring search).

The update handler relies on two stated assumptions. First, Mongoose drops keys whose value is `undefined` from an update, so a field the request did not send keeps its stored value. Second, `runValidators` rejects an update that sets `name` or `email` to the empty string. That rejection throws, so it is a 500 and not a 404, and it happens before the id is looked up.

`toggleSelectAll` and the header checkbox compare only the selection's length with the table's length, not its contents. The model keeps that comparison as written.

Two literals in the table component are double-encoded UTF-8: the truncation suffix (an ellipsis) and the avatar's fallback icon (a person emoji). Both are modelled as the characters the file actually holds. The truncation suffix is also listed under "## Findings".

## Model

| member | source | states |
|---|---|---|
| CustomerModel.Customer | server/src/models/customer.model.js:3-17 | the record: required name and email, four optional text fields, an optional `{url, public_id}` image, and the two timestamps |
| CustomerModel.Filled | server/src/models/customer.model.js:5-6 | Mongoose's `required` on a String path: present and not empty |
| CustomerModel.WellFormed | server/src/models/customer.model.js:5-6 | a valid record has a non-empty name and a non-empty email |
| CustomerController.ImageData | server/src/controllers/customer.controller.js:36-38 | no file gives no image; a file gives `url` = its path and `public_id` = its file name |
| CustomerController.NewRecord | server/src/controllers/customer.controller.js:40-48 | the saved record carries the fresh id, the six text fields as sent, the upload's image and both timestamps equal to the clock; with name and email filled it satisfies the schema's required fields |
| CustomerController.Patched | server/src/controllers/customer.controller.js:62-76 | an update keeps the id and `createdAt`, refreshes `updatedAt`, keeps the image without a file and replaces it wholesale with one, overwrites only the sent fields, and keeps a valid record valid unless name or email is set to "" |
| CustomerController.Rejected | server/src/controllers/customer.controller.js:73-76 | the update validators reject a body that sets name or email to "" |
| CustomerController.IsListing | server/src/controllers/customer.controller.js:6-7 | a listing holds every stored record exactly once, each under its own id, and nothing else |
| CustomerController.ListingExists | server/src/controllers/customer.controller.js:6 | every store whose records sit under their own ids has a listing: a sequence holding each stored record exactly once |
| CustomerController.ListingSize | server/src/controllers/customer.controller.js:6 | a listing has exactly as many elements as the store has records |
| CustomerController.CustomerCollection.GetCustomers | server/src/controllers/customer.controller.js:4-12 | 200 with every stored record exactly once and nothing else; 500 "Failed to fetch customers" when the store throws; the store is not changed |
| CustomerController.CustomerCollection.GetCustomerById | server/src/controllers/customer.controller.js:15-25 | 200 with the stored record for a present id, 404 "Customer not found" for an absent one, 500 when the store throws; the store is not changed |
| CustomerController.CustomerCollection.CreateCustomer | server/src/controllers/customer.controller.js:28-56 | a missing or empty name or email is 400 and stores nothing; a failed save is 500 and stores nothing; otherwise exactly the new record is added under the fresh id and returned with 201 |
| CustomerController.CustomerCollection.UpdateCustomer | server/src/controllers/customer.controller.js:59-85 | an unknown id is 404 and changes nothing; a present id is replaced by its patched record, which is returned with 200, and no other record changes; a validator rejection or a failure is 500 and changes nothing |
| CustomerController.CustomerCollection.DeleteCustomer | server/src/controllers/customer.controller.js:88-100 | a present id is removed and confirmed with 200 and nothing else changes; an absent id is 404 and changes nothing; 500 on failure |
| CustomerController.ListEmptyStore | server/src/controllers/customer.controller.js:4-7 | listing an empty store is 200 with `[]` |
| CustomerController.CreateThenGet | server/src/controllers/customer.controller.js:15-20 | a record created with 201 reads back by its id with 200 and the same body |
| CustomerController.DeleteThenGet | server/src/controllers/customer.controller.js:88-95 | after a 200 delete the id reads back as 404; deleting an absent id is 404 and leaves the store as it was |
| CustomerController.Lifecycle | server/src/controllers/customer.controller.js:28-100 | create, read, update, delete and read of one record give 201, 200, 200, 200, 404, and the update keeps the unsent name and email while setting the sent company |
| CustomerRoutes.Match | server/src/routes/customer.routes.js:13-17 | the route table: GET and POST on `/`, GET, PUT and DELETE on `/:id`, the upload parser on POST and PUT, nothing else matched |
| CustomerRoutes.RegisteredLineReachesHandler | server/src/routes/customer.routes.js:13-17 | each handler is reached by its registered method and path, with the upload parser in front exactly for create and update |
| CustomerRoutes.MatchedRequestIsRegisteredLine | server/src/routes/customer.routes.js:13-17 | every request the router matches is the registered line of the handler it reaches |
| CustomerRoutes.UploadsOnlyOnWrites | server/src/routes/customer.routes.js:15-16 | only POST and PUT ever parse an upload; GET and DELETE never do |
| ServerApp.Resolve | server/index.js:26-42 | the middleware order: `GET /`, then `GET /api/health`, then the router under `/api/v1/customers`, then the 404 handler |
| ServerApp.CustomerRoutesLiveUnderMount | server/index.js:37 | a customer route is reached exactly when the path starts with `/api/v1/customers` and the rest matches the router |
| ServerApp.Serve | server/index.js:26-42 | unmatched requests get 404 `{error: "Not Found"}`; only POST, PUT and DELETE on a customer route, without a failure, change the store; 201 only for POST on the mount path; a list request returns every record; a delete request removes the id or answers 404 |
| CustomerApi.ApiUrl | client/src/api/customerAPI.js:3 | the configured URL when set and non-empty, otherwise `http://localhost:3000/api/v1/customers` |
| CustomerApi.ItemUrlParts | client/src/api/customerAPI.js:36 | the item URL is the base, one `/`, then the id, and both can be read back from it |
| CustomerApi.ItemUrlInjective | client/src/api/customerAPI.js:36 | distinct ids give distinct item URLs on one base |
| CustomerApi.Kept | client/src/api/customerAPI.js:8-12 | the entries whose value is neither undefined nor null, in order |
| CustomerApi.KeptConcat | client/src/api/customerAPI.js:8-12 | encoding distributes over concatenation, so entries are kept in the input's order |
| CustomerApi.KeptMembers | client/src/api/customerAPI.js:8-12 | an entry is in the encoding exactly when it is in the input with a value that is neither undefined nor null; no entry is added or altered |
| CustomerApi.KeptAllDefined | client/src/api/customerAPI.js:8-12 | an object with no undefined or null value is encoded entry for entry, empty strings included |
| CustomerApi.ToFormData | client/src/api/customerAPI.js:6-14 | the loop appends exactly the kept entries, in order |
| CustomerApi.AddCustomer | client/src/api/customerAPI.js:25-31 | a POST of the encoded object to the collection URL |
| CustomerApi.UpdateCustomer | client/src/api/customerAPI.js:34-40 | a PUT of the encoded object to `base + "/" + id` |
| CustomerApi.DeleteRequests | client/src/api/customerAPI.js:43-53 | one DELETE per id of an array, in array order, or one DELETE for a single id |
| CustomerApi.AllSucceed | client/src/api/customerAPI.js:46-47 | `Promise.all` over the per-id deletes succeeds when each of them does |
| CustomerApi.AllSucceedIff | client/src/api/customerAPI.js:46-47 | the fold over per-id results holds exactly when every delete succeeded |
| CustomerApi.DeleteCustomer | client/src/api/customerAPI.js:43-54 | resolves to its argument unchanged exactly when every delete it issued succeeds, and is rejected otherwise |
| CustomerApi.DeleteNothing | client/src/api/customerAPI.js:44-48 | deleting `[]` issues no request and resolves to `[]` |
| UseCustomers.MutationRequests | client/src/hooks/useCustomers.js:17-30 | add, update and delete issue exactly the requests of their API calls; update forwards its id and fields unchanged |
| UseCustomers.FindFirst | client/src/hooks/useCustomers.js:32 | nothing exactly when no record has the id; otherwise the first record with that id |
| UseCustomers.CustomersQuery.constructor | client/src/hooks/useCustomers.js:12-15 | the query starts with nothing cached and due for a fetch |
| UseCustomers.CustomersQuery.Fetched | client/src/hooks/useCustomers.js:12-15 | a fetch caches the list and makes it fresh |
| UseCustomers.CustomersQuery.Settle | client/src/hooks/useCustomers.js:17-30 | a settled mutation marks the list stale exactly when it succeeded, and never changes the cached data |
| UseCustomers.CustomersQuery.GetCustomerById | client/src/hooks/useCustomers.js:32 | nothing without a cached list; a result is a cached record with that id; a cached id is always found; reading the cache does not change it |
| CustomerForm.Form.Set | client/src/components/customers/CustomerForm.jsx:94 | a text change writes only its own key |
| CustomerForm.Issues | client/src/components/customers/CustomerForm.jsx:11-20 | the messages of the checks a text field fails, with the schema's own strings |
| CustomerForm.Within | client/src/components/customers/CustomerForm.jsx:11-20 | each text field's bounds, stated independently of the messages |
| CustomerForm.IssuesMeetBounds | client/src/components/customers/CustomerForm.jsx:11-20 | a field has no issue exactly when it is within its bounds: name 2 to 15, email valid and at most 25, address and company at most 50, notes at most 200, phone free |
| CustomerForm.SchemaErrors | client/src/components/customers/CustomerForm.jsx:116-120 | the parse's errors: one entry per failing field, the image included |
| CustomerForm.SchemaAccepts | client/src/components/customers/CustomerForm.jsx:11-28 | the whole schema holds: every text bound and the image size limit |
| CustomerForm.SchemaErrorsEmptyIff | client/src/components/customers/CustomerForm.jsx:11-28 | the whole parse has no errors exactly when every field is within its bounds and the image is absent or at most 1048576 bytes |
| CustomerForm.Revalidated | client/src/components/customers/CustomerForm.jsx:61-69 | re-validating a field writes only that field's entry, absent when it passes, and leaves the others as they were |
| CustomerForm.FromRecord | client/src/components/customers/CustomerForm.jsx:46-56 | loading a record maps missing fields to "" and clears the image input |
| CustomerForm.Entries | client/src/components/customers/CustomerForm.jsx:31-39 | the form object in its key order, with a chosen image as a file and no image as null |
| CustomerForm.FormState.constructor | client/src/components/customers/CustomerForm.jsx:31-44 | the form starts blank, without errors, and not loading |
| CustomerForm.FormState.ChangeText | client/src/components/customers/CustomerForm.jsx:71-96 | a text change stores the value under its key and re-validates that field alone |
| CustomerForm.FormState.ChooseImage | client/src/components/customers/CustomerForm.jsx:71-92 | an oversized file sets "File size must be 1 MB or less" and leaves the image empty; an acceptable file clears the error and is stored; no file changes nothing |
| CustomerForm.FormState.RemoveImage | client/src/components/customers/CustomerForm.jsx:265-271 | removing the preview clears the image and the image error |
| CustomerForm.FormState.ResetForm | client/src/components/customers/CustomerForm.jsx:99-112 | every text field becomes "", the image none, and both error stores are cleared |
| CustomerForm.FormState.LoadInitial | client/src/components/customers/CustomerForm.jsx:46-59 | with initial data the form becomes that record's form; without it nothing changes |
| CustomerForm.FormState.SetLoading | client/src/components/customers/CustomerForm.jsx:41 | sets the loading flag and nothing else |
| CustomerForm.FormState.HandleSubmit | client/src/components/customers/CustomerForm.jsx:114-127 | the form is submitted exactly when the schema accepts it and there is no image error; a failed parse replaces the errors with the parse's errors |
| CustomerTable.FilterMatches | client/src/components/customers/CustomerTable.jsx:34-37 | `defaultFilterFn`: the lowered cell, "" when missing, contains the lowered filter |
| CustomerTable.EmptyFilterMatchesEveryRow | client/src/components/customers/CustomerTable.jsx:34-37 | the empty filter keeps every row |
| CustomerTable.MissingCellMatchesOnlyEmptyFilter | client/src/components/customers/CustomerTable.jsx:34-37 | a null cell reads as "" and so matches only the empty filter |
| CustomerTable.FilterIgnoresCase | client/src/components/customers/CustomerTable.jsx:34-37 | upper-casing the filter or the cell does not change the result |
| CustomerTable.CellMatchesItsOwnText | client/src/components/customers/CustomerTable.jsx:34-37 | every piece of a cell's text, in either case, matches that cell |
| CustomerTable.NarrowerFilterMatchesFewerRows | client/src/components/customers/CustomerTable.jsx:34-37 | a row that matches a filter matches every piece of it |
| CustomerTable.ExtendedFilterMatchesFewerRows | client/src/components/customers/CustomerTable.jsx:34-37 | typing more of the filter can only drop rows |
| CustomerTable.Truncate | client/src/components/customers/CustomerTable.jsx:45-48 | as written: missing text gives ""; text of at most n characters is unchanged; longer text keeps its first n characters and gains the literal's three characters "â€¦", so the result has at most n+3 |
| CustomerTable.TruncateAppendsThreeCharacters | client/src/components/customers/CustomerTable.jsx:47 | `truncate("abcdef", 3)` is "abc" plus the three-character literal, six characters in all |
| CustomerTable.TruncateIntended | client/src/components/customers/CustomerTable.jsx:45-48 | as intended: longer text gains the single ellipsis U+2026, so the result has at most n+1 characters |
| CustomerTable.TruncateDiffersOnlyInSuffix | client/src/components/customers/CustomerTable.jsx:47 | the two readings agree on every untruncated text and on the kept prefix, and differ only in the suffix |
| CustomerTable.SplitSpaces | client/src/components/customers/CustomerTable.jsx:60 | splitting on " " always yields at least one piece |
| CustomerTable.JoinSpaces | client/src/components/customers/CustomerTable.jsx:60 | `join(" ")`, the inverse that SplitJoin pairs with the split |
| CustomerTable.SplitJoin | client/src/components/customers/CustomerTable.jsx:60 | joining the pieces with " " gives the name back, and no piece holds a space |
| CustomerTable.Heads | client/src/components/customers/CustomerTable.jsx:61-62 | the first character of every piece, an empty piece giving nothing |
| CustomerTable.WordStarts | client/src/components/customers/CustomerTable.jsx:60-62 | independently: every non-space character that starts the name or follows a space |
| CustomerTable.HeadsOfSplit | client/src/components/customers/CustomerTable.jsx:60-62 | the first characters of the pieces are exactly the non-space characters that start the name or follow a space |
| CustomerTable.Initials | client/src/components/customers/CustomerTable.jsx:58-64 | the initials have at most two characters |
| CustomerTable.InitialsAreFirstWordStarts | client/src/components/customers/CustomerTable.jsx:58-64 | the initials are the first two word starts of the name, upper-cased |
| CustomerTable.InitialsOfEmptyName | client/src/components/customers/CustomerTable.jsx:58 | a missing name gives "U", from "User" |
| CustomerTable.InitialsOfTwoWords | client/src/components/customers/CustomerTable.jsx:58-64 | "ada lee" gives "AL" |
| CustomerTable.InitialsSkipExtraSpaces | client/src/components/customers/CustomerTable.jsx:58-64 | runs of spaces contribute nothing: "  bo  x" gives "BX" |
| CustomerTable.AvatarText | client/src/components/customers/CustomerTable.jsx:76 | the avatar shows the initials, or the four-character literal "ðŸ‘¤" when there are none |
| CustomerTable.IconForNamesWithoutWords | client/src/components/customers/CustomerTable.jsx:58-64 | the icon shows exactly when the name, or "User", has no word start |
| CustomerTable.IconForBlankName | client/src/components/customers/CustomerTable.jsx:58-76 | a name of one space shows the icon |
| CustomerTable.Without | client/src/components/customers/CustomerTable.jsx:164 | `filter((x) => x !== id)` |
| CustomerTable.WithoutMembers | client/src/components/customers/CustomerTable.jsx:199 | filtering out an id keeps exactly the other ids |
| CustomerTable.WithoutConcat | client/src/components/customers/CustomerTable.jsx:199 | filtering distributes over concatenation, so order is kept |
| CustomerTable.WithoutAbsent | client/src/components/customers/CustomerTable.jsx:199 | filtering out an absent id changes nothing |
| CustomerTable.Toggled | client/src/components/customers/CustomerTable.jsx:197-200 | a present id is filtered out, an absent one appended |
| CustomerTable.ToggleFlipsMembership | client/src/components/customers/CustomerTable.jsx:197-200 | toggling flips the toggled id's membership and no other |
| CustomerTable.ToggleTwiceRestoresMembership | client/src/components/customers/CustomerTable.jsx:197-200 | toggling an id twice restores the original membership |
| CustomerTable.ToggleTwiceRestores | client/src/components/customers/CustomerTable.jsx:197-200 | toggling an unselected id twice restores the very list |
| CustomerTable.Ids | client/src/components/customers/CustomerTable.jsx:203 | the ids of the table's rows, in row order |
| CustomerTable.ToggledAll | client/src/components/customers/CustomerTable.jsx:202-205 | `[]` when the selection is as long as the table, otherwise every row id |
| CustomerTable.HeaderChecked | client/src/components/customers/CustomerTable.jsx:252-254 | the header is checked when the selection is as long as the non-empty table |
| CustomerTable.ToggleAllFlipsHeader | client/src/components/customers/CustomerTable.jsx:202-205 | on a non-empty table, select-all checks the header exactly when it was unchecked, and then every row's id is selected |
| CustomerTable.Selection.constructor | client/src/components/customers/CustomerTable.jsx:41 | nothing is selected at first |
| CustomerTable.Selection.ToggleSelect | client/src/components/customers/CustomerTable.jsx:197-200 | a present id is removed and an absent one appended |
| CustomerTable.Selection.ToggleSelectAll | client/src/components/customers/CustomerTable.jsx:202-205 | `[]` when the selection is as long as the table, otherwise every row id in row order |
| CustomerTable.Selection.HandleBulkDelete | client/src/components/customers/CustomerTable.jsx:213-226 | nothing with an empty selection; otherwise one delete of the whole selection, cleared on success and kept on failure |
| CustomerTable.Selection.HandleRowDelete | client/src/components/customers/CustomerTable.jsx:161-165 | one delete of `[id]`; on success only that id leaves the selection |
| CustomerFormWrapper.Dispatch | client/src/components/customers/CustomerFormWrapper.jsx:15-17 | an edit dispatches the update of the edited record's id; otherwise the add |
| CustomerFormWrapper.SubmittedFields | client/src/components/customers/CustomerFormWrapper.jsx:16-34 | a submitted form sends all six text fields, empty ones included, and the image only when one was chosen |
| CustomerFormWrapper.SubmissionTarget | client/src/components/customers/CustomerFormWrapper.jsx:15-34 | an edit issues one PUT to the edited record's URL; an add issues one POST to the collection |
| CustomerFormWrapper.HandleSubmit | client/src/components/customers/CustomerFormWrapper.jsx:12-17 | loading is switched on before the mutation is dispatched |
| CustomerFormWrapper.HandleSettled | client/src/components/customers/CustomerFormWrapper.jsx:19-45 | success resets the form, clears editing only for an update, drops loading and notifies the page; failure only drops loading |
| CustomersPage.TableData | client/src/pages/Customers.jsx:98 | the table gets the cached list, or `[]` when none is cached |
| CustomersPage.Page.constructor | client/src/pages/Customers.jsx:22-24 | nothing is edited, the modal is closed, no seeding is running |
| CustomersPage.Page.HandleAddClick | client/src/pages/Customers.jsx:26-29 | the modal opens on a blank form |
| CustomersPage.Page.HandleCloseModal | client/src/pages/Customers.jsx:31-34 | the modal closes and editing is cleared |
| CustomersPage.Page.EditRow | client/src/pages/Customers.jsx:100-103 | the modal opens on the chosen record |
| CustomersPage.Page.FormSettled | client/src/pages/Customers.jsx:76-82 | a successful mutation marks the list stale, resets the form's fields, errors and image error, and closes the modal; a failure leaves the page, the cache and the form's fields, errors and image error as they were, and only drops loading |
| CustomersPage.Page.HandleInsertSeed | client/src/pages/Customers.jsx:36-48 | no-op without an add mutation; otherwise the seeds are added one at a time, in order, up to and including the first failure; the busy flag is on when each add is issued and ends false; each successful add marks the list stale, and the cached data is not changed |
| Text.Lower | client/src/components/customers/CustomerTable.jsx:36 | lowering keeps the length and lowers each character |
| Text.LowerForgetsCase | client/src/components/customers/CustomerTable.jsx:36-37 | lowering an upper-cased string is the same as lowering it |
| Text.ContainsTransitive | client/src/components/customers/CustomerTable.jsx:37 | a piece of a piece of a string is a piece of the string |
| Text.ContainsLowered | client/src/components/customers/CustomerTable.jsx:36-37 | a piece of a string stays a piece after both are lowered |

## Left out

- ObjectId casting: an id that is not a valid ObjectId makes the driver throw, which the handlers answer with 500. Ids here are plain strings, so such a request is a 404.
- CustomerController.CustomerCollection.UpdateCustomer: assumes Mongoose strips `undefined` update keys, and models `runValidators` only as the rejection of "" for name or email.
- The database driver, `connectDB`, helmet, cors, dotenv, `express.json()` and `listen` are I/O and are not modelled. A store failure is the `outage` input.
- The multer middleware and file storage are not part of this model. `req.file` is an optional `{path, filename}` input. Uploaded images of deleted or updated records are left in storage.
- ServerApp.Serve: the health endpoint's `timestamp` comes from the clock and is dropped from the payload. Express's case-insensitive paths, HEAD requests and percent-decoding are not modelled; a path is its list of non-empty segments.
- CustomerController.Patched: `updatedAt` is the `now` input; the model does not require it to increase.
- axios, the browser `FormData` object and the concurrency of `Promise.all` are not modelled. Batch delete is a fold in array order, because the source promises no ordering or rollback.
- react-query's refetch timing and stale-response races are not modelled. Only the stale flag is kept.
- react-table's sorting, pagination and row models are library behaviour and are not modelled.
- CustomerForm.IssuesMeetBounds: zod's email regular expression is the `isEmail` input.
- Text.Lower: casing is ASCII-only, and string length is sequence length rather than UTF-16 code units.
- CustomerTable.FilterMatches: a cell is modelled as optional text. A non-string cell, such as the image object, would be stringified by the source, and that is not modelled.
- CustomerForm.FormState.ChooseImage: the 500 ms `setTimeout`, the image-loading flag and `URL.createObjectURL` previews are collapsed; the file is stored at once.
- The `imagePreview` state is not modelled: not the preview LoadInitial sets from the record's image (CustomerForm.jsx:57), not its reset in ResetForm (:109), and not the remove button's clearing (:269). It only drives rendering.
- Toasts, console logging and all JSX markup and styling are not modelled. So are the truncation widths the cells pass, the Modal, App, main and CustomerDetail components (CustomerDetail's own initials and emoji fallback included), and the disabled state of buttons.
- `fetchCustomers` (client/src/api/customerAPI.js:19-22) is the list GET; its result is what `CustomersQuery.Fetched` caches.
- seedData/seedCustomers is not part of this model. The seeds are an input sequence.
- The query's `isLoading` and `isError` flags and the skeleton shown while loading are not modelled.

## Findings

| source | as written | input that shows it | evidently intended | confidence | as-written member | corrected member |
|---|---|---|---|---|---|---|
| client/src/components/customers/CustomerTable.jsx:47 | the suffix literal is "â€¦", the UTF-8 bytes of U+2026 re-read as Windows-1252 and saved again, so three characters are appended | `truncate("abcdef", 3)` gives "abcâ€¦", six characters | "abc…", one ellipsis character, so at most n+1 characters | medium, not executed | CustomerTable.TruncateAppendsThreeCharacters | CustomerTable.TruncateIntended |
