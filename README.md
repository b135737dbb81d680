# Warehouse management console: session handling, line-item editors and forms

This project models, in Dafny, the client-side rules of a React admin console for a
multi-tenant warehouse system. Stock accounting and permissions are on the server.
The client still makes many small, sequential decisions, and those are what is modelled:

- **Session handling.** The browser's key/value storage holds `accessToken`,
  `refreshToken` and `tenantId`.
  - The route guard decides whether to render a page or redirect to `/log-in`.
  - Sign-in writes the three keys.
  - Logout removes the two tokens.
- **Line-item editors.** These are the warehouse-transfer, import and export create and
  edit pages. Each keeps a list of detail rows and lets the user add, remove and edit
  rows; the numbers typed are coerced with `Number(v) || 0`. Each page validates with
  ordered checks (the first failing check's message is shown) and projects the rows into
  a request body. The export edit page also shows a running total.
- **Forms.** These are the warehouse, product, user, customer and category pages. Fields
  are required after trimming, some fields are sent only when present, and a flag stops
  double submission. Also modelled are the category and role search filters and the
  "roles not yet assigned" filter.

**How pages are modelled.**
- Each page is a `class Page`. The page's React state becomes fields, and each event
  handler becomes a method whose `modifies` clause names exactly the fields it sets.
- Pure parts are functions with lemmas: validators, payload projections, load mappings,
  filters and the export total.
- The network, `jwtDecode` and the clock are parameters, not library behaviour:
  - a request's outcome is `ServerOutcome` (`Accepted`, or `Rejected` carrying
    `err.response.data.message` and `err.message`);
  - fetched data is an `Option` or a `Result`;
  - the JWT decoder is a function `string -> Option<Claims>`;
  - the clock is an integer count of milliseconds.
- A handler's return values say which request it sent, and with what body, and where it
  navigates.

**Shared modules.**
- `Basics`: `Option`, `Result`, server outcomes, snackbars.
- `JsString`: ASCII `trim`, `toLowerCase` and `includes`.
- `JsNumber`: `Number(v)` on integer text, `Number(v) || 0`, `toString`.
- `Sequences`: an order-preserving filter.
- `LineItems`: add, remove and replace a row.
- `Validation`: ordered checks and their first failure.
- `Jwt`: the claims and the user id taken from the token.
- `TokenStorage`: `localStorage` as a class over a `map<string, string>`.
- `FormData`: a multipart body as a sequence of keyed parts, whose field reads return the
  first part with that key.

**Where the code differs from its documentation, the model follows the code:**
- The guard performs no token renewal. It compares `exp < Date.now() / 1000`, which is
  `exp * 1000 < nowMs`. So a token is still accepted at the exact instant `exp`, and a
  token without an `exp` claim is always accepted.
- Sign-in with a token that has no `tenant` claim stores the text `"undefined"` under
  `tenantId`.
- The import and export edit pages throw `Error('Invalid request')` when the token, the
  record id or the user id is missing. The catch reads only `err.response?.data?.message`,
  so the message shown is the page's default update-failure text.
- The warehouse edit page skips validation entirely when there is no record id
  (`!id || !validateForm()`).
- On the product create page, `validateForm` lets a price held as non-numeric text
  pass, because `NaN <= 0` is false. Typing cannot produce such a price (see
  "Left out").
- On the user page, when no user is loaded, every available role is offered.
- On the import and export create pages, a missing token ends in the page's fixed
  failure message, because the catch ignores the error.
- On the transfer create page, a missing token shows "No access token": the catch shows
  the thrown error's own message when the response carries none.
- The customer create page checks raw emptiness, so whitespace-only fields are accepted.
- The category and role searches test blankness on the trimmed text but match the
  untrimmed text.
- On the user page:
  - `age ? +age : null` sends an age held as whitespace-only text as `0`, not `null`.
    Typing cannot produce such an age (see "Left out");
  - a missing token while loading shows "Failed to load user".

## Model

| member | source | states |
|---|---|---|
| ProtectedRoutes.IsTokenExpired | src/components/ProtectedRoutes.tsx:19-31 | A token counts as unexpired only when it is present, non-empty and decodes. If it also has an `exp` claim, the clock has not passed `exp` seconds. |
| ProtectedRoutes.SecondsVsMillis | src/components/ProtectedRoutes.tsx:24-26 | Comparing `exp` with `Date.now() / 1000` as reals is the same as comparing `exp * 1000` with the millisecond clock. |
| ProtectedRoutes.GuardDecision | src/components/ProtectedRoutes.tsx:33-39 | The guard renders its children exactly when a token is stored and not expired. Otherwise it redirects, and only ever to `/log-in`. |
| ProtectedRoutes.ProtectedRoute | src/components/ProtectedRoutes.tsx:14-39 | The guard decides from the stored token. On redirect, storage loses exactly `accessToken` (`refreshToken` and `tenantId` stay). On render, storage is unchanged. |
| ProtectedRoutes.NoTokenRedirects | src/components/ProtectedRoutes.tsx:15-36 | With no stored token, the guard redirects to `/log-in`. |
| ProtectedRoutes.EmptyTokenRedirects | src/components/ProtectedRoutes.tsx:16-33 | An empty token counts as stored but is treated as expired, so the guard redirects. |
| ProtectedRoutes.UndecodableTokenRedirects | src/components/ProtectedRoutes.tsx:22-30 | A token that fails to decode is redirected at any time: the guard fails closed. |
| ProtectedRoutes.ExpiryBoundary | src/components/ProtectedRoutes.tsx:24-26 | A decodable token with `exp` is rendered if and only if `nowMs <= exp * 1000`. At the exact instant `exp` it is still accepted. |
| ProtectedRoutes.NoExpClaimAccepted | src/components/ProtectedRoutes.tsx:26 | A decodable token without `exp` is always rendered, because `undefined < now` is false. |
| ProtectedRoutes.ExpiryIsMonotonic | src/components/ProtectedRoutes.tsx:19-33 | Once the guard rejects a token, it rejects it at every later time. |
| TokenStorage.Lookup | src/components/ProtectedRoutes.tsx:15 | `getItem` gives a value exactly when the key is stored, and that value is the stored one. |
| TokenStorage.Storage.SetItem | src/services/Auth/auth.service.ts:28-30 | `setItem` maps the key to the value and changes no other key. |
| TokenStorage.Storage.RemoveItem | src/components/Navbar.tsx:21-22 | `removeItem` deletes exactly that key. |
| AuthService.StoredText | src/services/Auth/auth.service.ts:30 | A claim that is present is stored as given. A missing claim is stored as the text `undefined`. |
| AuthService.SignedInItems | src/services/Auth/auth.service.ts:24-30 | After sign-in, storage has the returned access and refresh tokens and the tenant claim's text. Every other key keeps its value. |
| AuthService.SignIn | src/services/Auth/auth.service.ts:17-36 | A failed request is rethrown with storage untouched. A token that does not decode throws before any write. Otherwise the three keys are written and the returned pair is the server's pair. |
| AuthService.SignedInAgreesWithResponse | src/services/Auth/auth.service.ts:26-32 | Reading storage back after sign-in gives the pair that was returned, and the tenant claim of the token. |
| AuthService.RenewAccessToken | src/services/Auth/auth.service.ts:39-48 | Renewal returns the server's answer, or its error, unchanged. It takes no storage, so it writes no key. |
| Jwt.UserIdFromToken | src/pages/Product/CreateProduct.tsx:46-56 | A user id comes back only from a stored, decodable token, and it is that token's `id` claim. |
| Navbar.LoggedOutItems | src/components/Navbar.tsx:20-24 | After logout, neither token key is stored. Every other key, `tenantId` included, is stored exactly when it was before, with the same value. |
| Navbar.HandleLogout | src/components/Navbar.tsx:20-24 | Logout leaves storage as `LoggedOutItems` of the old storage and always navigates to `/log-in`. |
| Navbar.LogoutIdempotent | src/components/Navbar.tsx:21-22 | Logging out twice leaves the same storage as logging out once. |
| Navbar.GuardRedirectsAfterLogout | src/components/Navbar.tsx:21 | After logout, the route guard redirects whatever was stored. |
| Navbar.LogoutAfterSignInKeepsTenant | src/components/Navbar.tsx:20-24 | A sign-in followed by a logout keeps the signed-in tenant and leaves no access token. |
| JsNumber.NumberOrZero | src/pages/Warehouse/CreateWarehouseTransfer.tsx:97 | `Number(v) \|\| 0`: text that is blank or not a number gives 0. |
| LineItems.AddLine | src/pages/Warehouse/CreateWarehouseTransfer.tsx:82-84 | Adding a row appends exactly that row and keeps the earlier rows as they were. |
| LineItems.RemoveLine | src/pages/Warehouse/CreateWarehouseTransfer.tsx:86-91 | With one row left, or an index past the end, removal does nothing. Otherwise it deletes exactly row `index`, keeps the others in order, and never empties a non-empty list. |
| LineItems.UpdateLine | src/pages/Warehouse/CreateWarehouseTransfer.tsx:93-99 | Editing row `index` replaces that row and no other, and keeps the length. |
| LineItems.RemoveLineMultiset | src/pages/Import/CreateImport.tsx:101-106 | A removal takes exactly the removed row out of the multiset of rows. |
| LineItems.RemoveAddedLine | src/pages/Import/CreateImport.tsx:94-106 | Removing the row just added gives back the list before the add. |
| Validation.FirstFailure | src/pages/Warehouse/CreateWarehouseTransfer.tsx:102-123 | There is no failure message exactly when every check passes. Otherwise the message belongs to a failing check that has no earlier failing check. |
| Validation.FirstFailureIsEarliest | src/pages/Import/CreateImport.tsx:119-138 | If check `i` is the first one that fails, its message is the one reported. |
| CreateWarehouseTransfer.ChangeField | src/pages/Warehouse/CreateWarehouseTransfer.tsx:93-99 | A product edit stores the text. A quantity edit stores `Number(v) \|\| 0`. |
| CreateWarehouseTransfer.ValidIff | src/pages/Warehouse/CreateWarehouseTransfer.tsx:102-123 | Validation passes if and only if: there is a user id, the description is not blank, both warehouses are set and differ, and every row has a product and a positive quantity. |
| CreateWarehouseTransfer.PayloadLines | src/pages/Warehouse/CreateWarehouseTransfer.tsx:138-141 | The request rows are the page's rows: same count, same order, product and quantity. |
| CreateWarehouseTransfer.DestinationOptions | src/pages/Warehouse/CreateWarehouseTransfer.tsx:195-197 | The destination list never offers the source warehouse. It offers every other warehouse, in the original order. |
| CreateWarehouseTransfer.Page.constructor | src/pages/Warehouse/CreateWarehouseTransfer.tsx:51-57 | The user id is the `id` claim of the stored token (`Jwt.UserIdFromToken`). The page starts with the single row `{productId: '', quantity: 1}` and empty selections. |
| CreateWarehouseTransfer.Page.HandleAddDetail | src/pages/Warehouse/CreateWarehouseTransfer.tsx:82-84 | Appends the default row and keeps the list non-empty. |
| CreateWarehouseTransfer.Page.HandleRemoveDetail | src/pages/Warehouse/CreateWarehouseTransfer.tsx:86-91 | Removes row `index` unless it is the last one, and keeps the list non-empty. |
| CreateWarehouseTransfer.Page.HandleDetailChange | src/pages/Warehouse/CreateWarehouseTransfer.tsx:93-99 | Only row `index` changes, and only the named field of it. The list stays non-empty. |
| CreateWarehouseTransfer.Page.ValidateForm | src/pages/Warehouse/CreateWarehouseTransfer.tsx:102-123 | The result is true exactly when the form is valid. On failure, the error is the first failing check's message; on success, the error is untouched. |
| CreateWarehouseTransfer.Page.HandleSubmit | src/pages/Warehouse/CreateWarehouseTransfer.tsx:126-150 | A request is sent exactly when the form is valid and a token is stored, and it carries the page's fields and rows. Acceptance shows the success message and navigates to `/warehouses`. Rejection shows the response message, else the error message, else the default. |
| WarehouseTransferDetail.LoadLines | src/pages/Warehouse/WarehouseTransferDetail.tsx:82-88 | Loaded rows keep the server's row id, product id and quantity, in server order. |
| WarehouseTransferDetail.ChangeField | src/pages/Warehouse/WarehouseTransferDetail.tsx:108-118 | An edit never changes a row's id. Product edits store the text. Quantity edits store `Number(v) \|\| 0`. |
| WarehouseTransferDetail.ValidIff | src/pages/Warehouse/WarehouseTransferDetail.tsx:121-138 | Validation passes if and only if the description is not blank, both warehouses are set and differ, and every row has a product and a positive quantity. |
| WarehouseTransferDetail.PayloadLines | src/pages/Warehouse/WarehouseTransferDetail.tsx:155-159 | The request rows are the page's rows, ids included, in order. |
| WarehouseTransferDetail.SaveAfterLoadKeepsIds | src/pages/Warehouse/WarehouseTransferDetail.tsx:155-159 | Saving right after loading sends every server row with its own id. |
| WarehouseTransferDetail.AddedLineHasNoId | src/pages/Warehouse/WarehouseTransferDetail.tsx:97-99 | An added row goes out without an id, and the rows before it keep theirs. |
| WarehouseTransferDetail.Page.Destinations | src/pages/Warehouse/WarehouseTransferDetail.tsx:229-230 | The destination selector lists every loaded warehouse except the chosen source, in list order. |
| WarehouseTransferDetail.Page.ApplyLoaded | src/pages/Warehouse/WarehouseTransferDetail.tsx:76-88 | Loading stores the warehouse list and sets the description and both warehouses, with `''` for missing ones, and the rows from `LoadLines`. |
| WarehouseTransferDetail.Page.HandleAddDetail | src/pages/Warehouse/WarehouseTransferDetail.tsx:97-99 | Appends a row with no id, no product and quantity 1. |
| WarehouseTransferDetail.Page.HandleRemoveDetail | src/pages/Warehouse/WarehouseTransferDetail.tsx:101-106 | Removes row `index` unless it is the last one. |
| WarehouseTransferDetail.Page.HandleDetailChange | src/pages/Warehouse/WarehouseTransferDetail.tsx:108-118 | Only the named field of row `index` changes. |
| WarehouseTransferDetail.Page.ValidateForm | src/pages/Warehouse/WarehouseTransferDetail.tsx:121-138 | The result is true exactly when the form is valid. On failure, the error is the first failing check's message. |
| WarehouseTransferDetail.Page.HandleUpdate | src/pages/Warehouse/WarehouseTransferDetail.tsx:141-167 | An update is sent exactly when the form is valid, a token is stored and the same token decodes to a user id, which the request carries. An invalid form sends nothing. A missing token shows "No access token". A missing user id shows "User authentication required". Rejection shows the response message, else the error message, else the default. |
| CreateImport.ChangeField | src/pages/Import/CreateImport.tsx:108-116 | Text fields are stored as given. Quantity and import price become `Number(v) \|\| 0`. |
| CreateImport.ValidIff | src/pages/Import/CreateImport.tsx:119-138 | Validation passes if and only if there is a user id, a non-blank description and a supplier, and every row has a product, a warehouse, a positive quantity and a positive price. |
| CreateImport.DefaultLineBlocksSubmit | src/pages/Import/CreateImport.tsx:131-134 | A row still at its default (price 0) makes validation fail. |
| CreateImport.PayloadLines | src/pages/Import/CreateImport.tsx:152-157 | The request rows are the page's rows, with the four fields, in order. |
| CreateImport.Page.constructor | src/pages/Import/CreateImport.tsx:60-66 | The user id is the `id` claim of the stored token (`Jwt.UserIdFromToken`). The page starts with the single row `{'', '', 1, 0}`. |
| CreateImport.Page.HandleAddDetail | src/pages/Import/CreateImport.tsx:94-99 | Appends the default row and keeps the list non-empty. |
| CreateImport.Page.HandleRemoveDetail | src/pages/Import/CreateImport.tsx:101-106 | Removes row `index` unless it is the last one, and keeps the list non-empty. |
| CreateImport.Page.HandleDetailChange | src/pages/Import/CreateImport.tsx:108-116 | Only the named field of row `index` changes. |
| CreateImport.Page.ValidateForm | src/pages/Import/CreateImport.tsx:119-138 | The result is true exactly when the form is valid. On failure, the error is the first failing check: user, then description, then supplier, then rows. |
| CreateImport.Page.HandleSubmit | src/pages/Import/CreateImport.tsx:141-165 | A request is sent exactly when the form is valid and a token is stored, and it carries the page's rows. Acceptance navigates to `/imports`. A missing token or a rejection shows the generic failure message. |
| ImportDetail.LoadLines | src/pages/Import/ImportDetail.tsx:99-104 | Loaded rows keep the server's product, warehouse, quantity and price, in server order. |
| ImportDetail.SaveAfterLoad | src/pages/Import/ImportDetail.tsx:144-149 | Saving right after loading sends the server's rows back unchanged. |
| ImportDetail.Page.ApplyLoaded | src/pages/Import/ImportDetail.tsx:91-106 | Loading sets the description, the supplier (`''` if missing) and the rows. |
| ImportDetail.Page.HandleAddDetail | src/pages/Import/ImportDetail.tsx:115-117 | Appends the default row `{'', '', 1, 0}`. |
| ImportDetail.Page.HandleRemoveDetail | src/pages/Import/ImportDetail.tsx:119-124 | Removes row `index` unless it is the last one. |
| ImportDetail.Page.HandleDetailChange | src/pages/Import/ImportDetail.tsx:126-132 | Only the named field of row `index` changes, with `Number(v) \|\| 0` for the numbers. |
| ImportDetail.Page.HandleUpdate | src/pages/Import/ImportDetail.tsx:135-156 | An update is sent exactly when the token, the record id and the user id are all present, with the rows unvalidated and in order. Otherwise nothing is sent and the default failure message shows. |
| CreateExport.SelectProduct | src/pages/Export/CreateExport.tsx:108-119 | Choosing a product clears the row's warehouse and keeps its quantity and price. The warehouse choices become the lookup's result, or none when the lookup fails. |
| CreateExport.ChangeField | src/pages/Export/CreateExport.tsx:120-127 | Warehouse edits store the text. Quantity and price edits store `Number(v) \|\| 0`. |
| CreateExport.SelectProductNeedsWarehouse | src/pages/Export/CreateExport.tsx:108-118 | Right after choosing a product, the row fails validation. If the lookup failed, the row's warehouse selector is disabled. |
| CreateExport.ValidIff | src/pages/Export/CreateExport.tsx:132-148 | Validation passes if and only if there is a user id, a non-blank description, and every row has a product, a warehouse, a positive quantity and a positive price. No customer is required. |
| CreateExport.PayloadLines | src/pages/Export/CreateExport.tsx:161-166 | The request has one item per row, in order, with the four fields and without the warehouse choices. |
| CreateExport.PayloadIgnoresChoices | src/pages/Export/CreateExport.tsx:161-166 | Changing a row's warehouse choices does not change the request. |
| CreateExport.Page.constructor | src/pages/Export/CreateExport.tsx:59-65 | The user id is the `id` claim of the stored token (`Jwt.UserIdFromToken`). The page starts with one default row. |
| CreateExport.Page.HandleAddDetail | src/pages/Export/CreateExport.tsx:91-96 | Appends the default row and keeps the list non-empty. |
| CreateExport.Page.HandleRemoveDetail | src/pages/Export/CreateExport.tsx:98-103 | Removes row `index` unless it is the last one, and keeps the list non-empty. |
| CreateExport.Page.HandleDetailChange | src/pages/Export/CreateExport.tsx:105-130 | Only row `index` changes. A product choice goes through `SelectProduct` and shows the lookup error when the lookup fails. Other fields go through `ChangeField`. |
| CreateExport.Page.ValidateForm | src/pages/Export/CreateExport.tsx:132-148 | The result is true exactly when the form is valid. On failure, the error is the first failing check's message. |
| CreateExport.Page.HandleSubmit | src/pages/Export/CreateExport.tsx:150-174 | A request is sent exactly when the form is valid and a token is stored, and it carries the projected rows. Acceptance navigates to `/exports`. A missing token or a rejection shows the generic failure message. |
| ExportDetail.LoadLines | src/pages/Export/ExportDetail.tsx:100-105 | Loaded rows keep the server's product, warehouse, quantity and price, in server order. |
| ExportDetail.DefaultWarehouse | src/pages/Export/ExportDetail.tsx:138-139 | The default warehouse is the product's first warehouse, or `''` when it has none. |
| ExportDetail.SelectProduct | src/pages/Export/ExportDetail.tsx:130-142 | Choosing a product keeps the row's quantity and price. It sets the warehouse to the product's first warehouse, or to `''` when the lookup fails. |
| ExportDetail.ChangeField | src/pages/Export/ExportDetail.tsx:143-147 | Warehouse edits store the text. Quantity and price edits store `Number(v) \|\| 0`. |
| ExportDetail.TotalValue | src/pages/Export/ExportDetail.tsx:193-195 | The total of an empty list is 0. |
| ExportDetail.TotalValueConcat | src/pages/Export/ExportDetail.tsx:193-195 | The total of two lists joined is the sum of their totals. |
| ExportDetail.TotalValueIsSum | src/pages/Export/ExportDetail.tsx:193-195 | The left-to-right `reduce` equals the recursive sum of `quantity * sellingPrice` over the rows. |
| ExportDetail.AddDefaultKeepsTotal | src/pages/Export/ExportDetail.tsx:116-118 | Adding the default row (quantity 1, price 0) leaves the total unchanged. |
| ExportDetail.TotalAround | src/pages/Export/ExportDetail.tsx:193-195 | A row's value adds to the total of the rows around it. |
| ExportDetail.RemoveLineTotal | src/pages/Export/ExportDetail.tsx:120-125 | Removing a row lowers the total by exactly that row's value. |
| ExportDetail.UpdateLineTotal | src/pages/Export/ExportDetail.tsx:143-147 | Replacing a row changes the total by the new value minus the old one. |
| ExportDetail.PayloadLines | src/pages/Export/ExportDetail.tsx:162-167 | The request rows are the page's rows, in order. |
| ExportDetail.Page.ApplyLoaded | src/pages/Export/ExportDetail.tsx:92-107 | Loading sets the description, the customer (`''` if missing) and the rows. |
| ExportDetail.Page.HandleAddDetail | src/pages/Export/ExportDetail.tsx:116-118 | Appends the default row. |
| ExportDetail.Page.HandleRemoveDetail | src/pages/Export/ExportDetail.tsx:120-125 | Removes row `index` unless it is the last one. |
| ExportDetail.Page.HandleDetailChange | src/pages/Export/ExportDetail.tsx:127-151 | Only row `index` changes. A product choice goes through `SelectProduct` and shows the lookup error when the lookup fails. Other fields go through `ChangeField`. |
| ExportDetail.Page.HandleUpdate | src/pages/Export/ExportDetail.tsx:153-175 | An update is sent exactly when the token, the record id and the user id are all present. Otherwise nothing is sent and the default failure message shows. Rejection shows the response message, else the default. |
| CreateWarehouse.SetField | src/pages/Warehouse/CreateWarehouse.tsx:33-34 | Editing a field sets that field and no other. |
| CreateWarehouse.ClearError | src/pages/Warehouse/CreateWarehouse.tsx:35 | Editing a field clears that field's error and no other. |
| CreateWarehouse.ErrorsFor | src/pages/Warehouse/CreateWarehouse.tsx:38-53 | Each required field gets its message exactly when it is blank after trimming. Both are computed together. |
| CreateWarehouse.ValidIffNoErrors | src/pages/Warehouse/CreateWarehouse.tsx:38-53 | The form is valid if and only if no field error is recorded. Each error is set if and only if its field is blank. The phone is optional. |
| CreateWarehouse.Page.constructor | src/pages/Warehouse/CreateWarehouse.tsx:18-31 | The form starts empty, with no errors and nothing pending. |
| CreateWarehouse.Page.HandleInputChange | src/pages/Warehouse/CreateWarehouse.tsx:33-36 | Sets one value and clears only its error. |
| CreateWarehouse.Page.ValidateForm | src/pages/Warehouse/CreateWarehouse.tsx:38-53 | The result is true exactly when name and address are not blank. Both errors are recorded. |
| CreateWarehouse.Page.HandleSubmit | src/pages/Warehouse/CreateWarehouse.tsx:55-72 | A request is sent exactly when the form is valid, with the values as typed (untrimmed). Acceptance opens the success snackbar and navigates to `/warehouses`. Rejection shows the error message, else the default. Loading ends false. |
| WarehouseDetail.LoadedForm | src/pages/Warehouse/WarehouseDetail.tsx:38-42 | Missing name, address or phone load as `''`. Present ones load as given. |
| WarehouseDetail.TrimmedForm | src/pages/Warehouse/WarehouseDetail.tsx:73-77 | Each saved field is the field with its leading and trailing whitespace removed: it starts at the field's first non-whitespace character, only whitespace follows it, and it neither starts nor ends with whitespace (`IsTrimOf`). |
| JsString.IsTrimOfUnique | src/pages/Warehouse/WarehouseDetail.tsx:73-77 | `IsTrimOf` determines the trimmed text: two strings that both satisfy it for the same field are equal. |
| WarehouseDetail.TrimmedFormSaved | src/pages/Warehouse/WarehouseDetail.tsx:73-77 | A valid form saves a non-empty name and address, and trimming a second time changes nothing. |
| WarehouseDetail.Page.constructor | src/pages/Warehouse/WarehouseDetail.tsx:17-27 | The page starts with an empty form, no errors and no messages. |
| WarehouseDetail.Page.ApplyLoaded | src/pages/Warehouse/WarehouseDetail.tsx:37-42 | Loading sets the form from `LoadedForm`. |
| WarehouseDetail.Page.HandleInputChange | src/pages/Warehouse/WarehouseDetail.tsx:52-55 | Sets one value and clears only its error. |
| WarehouseDetail.Page.ValidateForm | src/pages/Warehouse/WarehouseDetail.tsx:57-64 | The result is true exactly when name and address are not blank. Both errors are recorded, the name's as "Warehouse name is required". |
| WarehouseDetail.Page.HandleSave | src/pages/Warehouse/WarehouseDetail.tsx:66-86 | With no id, nothing is validated or sent. Otherwise an update is sent exactly when the form is valid and a token is stored, carrying the trimmed form. Acceptance shows the success message. Rejection shows the response message, else the error message, else the default. |
| WarehouseDetail.Page.HandleSuccessClose | src/pages/Warehouse/WarehouseDetail.tsx:105-108 | Closing the success message clears it and navigates to `/warehouses`. |
| WarehouseDetail.Page.SuccessSnackbarClose | src/pages/Warehouse/WarehouseDetail.tsx:187 | A click-away close is ignored. Any other close clears the message and navigates to `/warehouses`. |
| FormData.GetIsFirstMatch | src/pages/Product/CreateProduct.tsx:113-127 | Reading a field finds nothing exactly when no part has that key. Otherwise it finds the value of the earliest part with that key. |
| FormData.Append | src/pages/Product/CreateProduct.tsx:114 | `append` adds one part at the end and keeps the earlier parts. |
| FormData.GetAppend | src/pages/Product/CreateProduct.tsx:113-127 | After an append, reading the appended key gives the new value if that key was absent before. Reading any other key is unchanged. |
| FormData.GetAppendAll | src/pages/Product/CreateProduct.tsx:113-127 | `GetAppend`, for every key at once. |
| CreateProduct.SetField | src/pages/Product/CreateProduct.tsx:58-61 | Editing a field sets that field and no other, and leaves the image alone. |
| CreateProduct.ValidIff | src/pages/Product/CreateProduct.tsx:76-94 | The form is valid if and only if the name is not blank and the price is not rejected. A blank name is reported before a bad price. |
| CreateProduct.BlankPriceRejected | src/pages/Product/CreateProduct.tsx:86-87 | A whitespace-only price is rejected. |
| CreateProduct.NonNumericPriceAccepted | src/pages/Product/CreateProduct.tsx:86-87 | `validateForm` passes a form whose price state is `abc`. The number input keeps typing from reaching this state. |
| CreateProduct.PayloadFields | src/pages/Product/CreateProduct.tsx:113-127 | The body's field for every key is as intended: name and description trimmed; image, minimum stock and order stock only when given; price, category and user id always. |
| CreateProduct.ValidFormSendsName | src/pages/Product/CreateProduct.tsx:76-94 | A valid form always sends a non-empty name. |
| CreateProduct.BuildBody | src/pages/Product/CreateProduct.tsx:113-127 | The step-by-step appends build the body `Entries` describes. |
| CreateProduct.Page.constructor | src/pages/Product/CreateProduct.tsx:26-44 | The form starts empty, with no submit in progress and the snackbar closed. |
| CreateProduct.Page.HandleChange | src/pages/Product/CreateProduct.tsx:58-61 | Sets the named field. |
| CreateProduct.Page.HandleImageChange | src/pages/Product/CreateProduct.tsx:63-74 | A picked file replaces the image. No file leaves the form unchanged. |
| CreateProduct.Page.ValidateForm | src/pages/Product/CreateProduct.tsx:76-94 | The result is true exactly when the form is valid. On failure, the error snackbar shows the first failing check's message; on success, the snackbar is untouched. |
| CreateProduct.Page.HandleSubmit | src/pages/Product/CreateProduct.tsx:96-155 | A body is sent exactly when the form is valid, no submit is in progress, and the token yields a user id; it is `Entries` with that id. If validation passes and no submit was in progress, a missing token or user id shows "Authentication required". Acceptance navigates to `/products`. Rejection shows the error message, else the default. `isSubmitting` ends false unless a submit was already running. |
| ProductDetail.NumberText | src/pages/Product/ProductDetail.tsx:65-68 | A loaded number's text reads back as that number. A missing number gives the fallback text. |
| ProductDetail.LoadedForm | src/pages/Product/ProductDetail.tsx:62-70 | Missing name, description and category load as `''`. Current stock is never empty: it is `'0'` when missing. |
| ProductDetail.LoadedNumbersReadBack | src/pages/Product/ProductDetail.tsx:65-68 | The loaded stock and prices parse back to the server's numbers. Current stock defaults to 0; a missing price or minimum stock is `''`. |
| ProductDetail.SetField | src/pages/Product/ProductDetail.tsx:79-82 | Editing a field sets that field and no other. |
| ProductDetail.UpdatePayloadFields | src/pages/Product/ProductDetail.tsx:95-108 | The update body's field for every key is as intended:<br>- the texts as typed;<br>- order stock only with a minimum stock;<br>- a picked file, else an empty image when the product has none, else no image;<br>- the category always;<br>- no user id. |
| ProductDetail.RemovedImageIsCleared | src/pages/Product/ProductDetail.tsx:103-107 | After the image is removed locally, the next update sends an empty image. While the stored image is present and no file is picked, no image field is sent. |
| ProductDetail.Page.constructor | src/pages/Product/ProductDetail.tsx:29-47 | The page starts with no product, an empty form and a closed snackbar. |
| ProductDetail.Page.ApplyFetch | src/pages/Product/ProductDetail.tsx:50-73 | A missing id or token shows "Missing required data". A successful load sets the product and `LoadedForm`. A failed load shows the error message, else "Failed to load data". |
| ProductDetail.Page.HandleChange | src/pages/Product/ProductDetail.tsx:79-82 | Sets the named field. |
| ProductDetail.Page.HandleImageChange | src/pages/Product/ProductDetail.tsx:84-88 | A picked file is selected. No file keeps the old selection. |
| ProductDetail.Page.HandleUpdate | src/pages/Product/ProductDetail.tsx:90-123 | A body is sent exactly when id and token are present, and it is `UpdateEntries` of the form, the selection and the stored image. Otherwise "Missing required data" shows. Acceptance shows a success snackbar. Rejection shows the error message, else the default. |
| ProductDetail.Page.HandleDelete | src/pages/Product/ProductDetail.tsx:125-144 | A delete is sent exactly when id and token are present, else "Missing required data" shows. Acceptance shows a success snackbar and closes the dialog. Rejection shows the error message, else the default. |
| ProductDetail.Page.HandleRemoveImage | src/pages/Product/ProductDetail.tsx:146-153 | Only the local product's image becomes null, and an info snackbar shows. No request is sent. |
| ProductDetail.Page.HandleSnackbarClose | src/pages/Product/ProductDetail.tsx:347-354 | A timeout or click-away closes the snackbar. It navigates to `/products` exactly when the snackbar was a success. An escape-key close does nothing. |
| ProductDetail.Page.HandleAlertClose | src/pages/Product/ProductDetail.tsx:358 | The alert's close button closes the snackbar and keeps its message. |
| CreateUser.SetField | src/pages/User/CreateUser.tsx:31-37 | Editing a field sets that field and no other. |
| CreateUser.ValidIff | src/pages/User/CreateUser.tsx:39-65 | The form is valid if and only if full name, email and password are not blank. The age plays no part in validation. |
| CreateUser.PayloadAge | src/pages/User/CreateUser.tsx:83-91 | An age is sent exactly when the field is not blank. A typed integer is sent as that integer. |
| CreateUser.Page.constructor | src/pages/User/CreateUser.tsx:17-29 | The form starts empty, with no submit in progress. |
| CreateUser.Page.HandleChange | src/pages/User/CreateUser.tsx:31-37 | Sets the named field. |
| CreateUser.Page.ValidateForm | src/pages/User/CreateUser.tsx:39-65 | The result is true exactly when the form is valid. On failure, the snackbar shows the first failing check: full name, then email, then password. |
| CreateUser.Page.HandleSubmit | src/pages/User/CreateUser.tsx:67-113 | A body is sent exactly when the form is valid, no submit is in progress and a token is stored; it carries the texts as typed and the optional age. Acceptance navigates to `/users`. Rejection shows the response message, else the default. `isSubmitting` ends false unless a submit was already running. |
| UserDetail.AssignableRoles | src/pages/User/UserDetail.tsx:191-195 | A role is offered if and only if it is available and not assigned to the loaded user. The offered roles keep the order of the available roles, and every copy of an offered role is kept. |
| UserDetail.AddedRoleLeavesSelector | src/pages/User/UserDetail.tsx:191-195 | Once a role is assigned and the user refetched, that role is no longer offered, and every other offered role still is. |
| UserDetail.AgeText | src/pages/User/UserDetail.tsx:44 | A user with no age shows an empty age field, and only such a user does. |
| UserDetail.AgeValue | src/pages/User/UserDetail.tsx:72-76 | The age is sent as null exactly when the field is empty. |
| UserDetail.AgeRoundTrip | src/pages/User/UserDetail.tsx:44-76 | Saving a loaded user without touching the age sends back the age it had. |
| UserDetail.BlankAgeSentAsZero | src/pages/User/UserDetail.tsx:72-76 | The update sends an age state that is whitespace-only as 0, not null. The number input keeps typing from reaching this state. |
| UserDetail.Page.constructor | src/pages/User/UserDetail.tsx:23-31 | The page starts loading, with no user, empty fields and no selection. |
| UserDetail.Page.FetchUser | src/pages/User/UserDetail.tsx:34-50 | A successful load sets the user and the three fields, with the age through `AgeText`. A missing token shows "Failed to load user". A failure shows the response message, else that default. Loading always ends false. |
| UserDetail.Page.HandleUpdate | src/pages/User/UserDetail.tsx:66-80 | An update is sent exactly when a token is stored, with the age through `AgeValue`. Rejection shows the response message, else the default. |
| UserDetail.Page.HandleAddRole | src/pages/User/UserDetail.tsx:111-125 | With no selected role, nothing happens. Otherwise the role is sent exactly when a token is stored. With no stored token it shows "Failed to add role". Acceptance clears the selection and shows the success message; a successful refetch sets the user, name, email and age text, a failed one keeps them and shows the response message or "Failed to load user". Rejection keeps the selection and the user's fields and shows the response message or "Failed to add role". |
| CategoryList.SearchFilter | src/pages/Category/CategoryList.tsx:29-36 | A blank search keeps every item unchanged. Otherwise an item is kept if and only if its lower-cased name contains the lower-cased, untrimmed search text. The result is always an order-preserving subsequence, and a matching item is kept as many times as it occurs. |
| CategoryList.SearchingFullNameKeeps | src/pages/Category/CategoryList.tsx:30-34 | Searching for an item's whole name, in any letter case, keeps that item. |
| CategoryList.UntrimmedSearchMisses | src/pages/Category/CategoryList.tsx:29-32 | The search ` desk` does not find the category `Desk`. |
| CategoryList.Page.constructor | src/pages/Category/CategoryList.tsx:22-23 | The page starts with no categories and an empty search. |
| CategoryList.Page.HandleSearchChange | src/pages/Category/CategoryList.tsx:62 | Typing sets the search text. |
| CategoryList.Page.FetchCategories | src/pages/Category/CategoryList.tsx:25-41 | A successful fetch shows the fetched categories filtered by the current search. A failure leaves the list unchanged. |
| Dashboard.Page.constructor | src/pages/Dashboard/Dashboard.tsx:32-39 | The page starts with no roles, empty inputs and the dialog closed. |
| Dashboard.Page.HandleSearchChange | src/pages/Dashboard/Dashboard.tsx:116 | Typing sets the search text. |
| Dashboard.Page.HandleNameChange | src/pages/Dashboard/Dashboard.tsx:175 | Typing sets the new role's name. |
| Dashboard.Page.FetchRoles | src/pages/Dashboard/Dashboard.tsx:41-58 | A successful fetch shows the roles filtered by the current search. A failure keeps the list and shows "Failed to fetch roles". |
| Dashboard.Page.HandleCreateRole | src/pages/Dashboard/Dashboard.tsx:69-81 | A blank name sends nothing and changes nothing. Otherwise the untrimmed name is sent. Acceptance clears the name and shows the success message; a successful refetch shows the filtered roles and leaves the error, a failed one keeps the list and shows "Failed to fetch roles". Rejection keeps the name, the list and the success message and shows "Failed to create role". |
| Dashboard.Page.OpenDeleteDialog | src/pages/Dashboard/Dashboard.tsx:83-86 | Records the role id and opens the dialog. |
| Dashboard.Page.HandleDelete | src/pages/Dashboard/Dashboard.tsx:88-103 | With no pending role, nothing is sent and nothing changes. Otherwise the pending id is sent, and the dialog ends closed with no pending role whatever the outcome. Acceptance shows the success message; a successful refetch shows the filtered roles and leaves the error, a failed one keeps the list and shows "Failed to fetch roles". Rejection keeps the list and shows "Failed to delete role". |
| CreateCustomer.BlankFieldsAccepted | src/pages/Customer/CreateCustomer.tsx:30-33 | Whitespace-only fields pass the "All fields are required" check. |
| CreateCustomer.Page.constructor | src/pages/Customer/CreateCustomer.tsx:16-23 | The form starts empty, with no messages and not loading. |
| CreateCustomer.Page.HandleSubmit | src/pages/Customer/CreateCustomer.tsx:25-61 | Old messages are cleared first. A request is sent exactly when no field is empty and a token is stored, and it carries the four fields. An empty field or a missing token shows its message and keeps the fields. Acceptance resets all four fields and navigates to `/customers`. Rejection shows the response message, else the default. Loading ends false after a request. |
| CreateCategory.Page.constructor | src/pages/Category/CreateCategory.tsx:16-20 | The form starts empty, with no messages and not loading. |
| CreateCategory.Page.HandleSubmit | src/pages/Category/CreateCategory.tsx:22-55 | Old messages are cleared first. A request is sent exactly when the name is not blank and a token is stored, and it carries the untrimmed name and the description. A blank name shows "Name is required". Acceptance resets both fields and navigates to `/categories`. Rejection shows the response message, else the default. Loading ends false after a request. |

## Left out

- The network, `jwtDecode` and `Date.now` are parameters. The model does not describe HTTP, token decoding or time. The HTTP service wrappers (everything under `src/services` except sign-in) are not part of this model.
- Token renewal: nothing in the modelled code calls `renewAccessToken`, so there is no renewal or retry behaviour.
- Fetch-on-mount and `Promise.all` loading are not modelled: the lists of products, warehouses, suppliers, customers, categories and roles that fill the selectors. Each page's load result is an input to its `ApplyLoaded`/`ApplyFetch`/`FetchUser` method.
- The event-loop race in the export pages' product-change handlers is not modelled. There, the lookup is awaited and then a possibly stale copy of the rows is written back. `CreateExport.Page.HandleDetailChange` and `ExportDetail.Page.HandleDetailChange` take the lookup result as a parameter and apply it at once.
- Rendering, MUI layout, snackbar durations, `setTimeout` navigation delays and image previews (`FileReader`) are not modelled. A delayed navigation is returned as the route it goes to.
- Numbers are integers. `Number(v)` is modelled on optionally signed decimal integer text, and anything else is NaN. Decimal fractions, exponents, hexadecimal, `parseFloat`, `toFixed` and `toLocaleString` are not modelled.
- `trim` removes ASCII whitespace only, and `toLowerCase` folds ASCII letters only. Unicode whitespace and case folding are not modelled.
- The browser's cleanup of `type="number"` inputs (src/pages/Product/CreateProduct.tsx:244, src/pages/User/UserDetail.tsx:165) is not modelled. Such an input reports `''` for text that is not a valid number, so the price `abc` of `CreateProduct.NonNumericPriceAccepted` and the whitespace-only age of `UserDetail.BlankAgeSentAsZero` cannot be reached by typing. The model takes any text as the field's state.
- A numeric user id `0` is not modelled. The decoder yields the id claim as text, so the falsy number 0 does not arise.
- The age sent by the user pages is `Option<NumberValue>`. JSON turns a NaN age into `null`, and that conversion is not modelled.
- These delete and dialog handlers are not modelled, because each is one network call with a message: `handleDelete` on the transfer, import, export, warehouse and user edit pages; the user page's `handleDeleteRole` and its role-list fetch; and the open/close buttons of the delete dialogs.
- The error and success snackbars' close buttons on the line-item pages are not modelled. Each only clears a message.
- The `saving`/`deleting` flags of the warehouse edit page are not modelled, beyond `saving` ending false. They only disable buttons.
- Report, list, login, sign-up and tenant pages, the other detail pages and `App.tsx` are not part of this model.
- `ProductDetail.Page.HandleUpdate`, `ProductDetail.Page.HandleRemoveImage`: require a loaded product. The page renders a loading placeholder, and no buttons, until the product is loaded (src/pages/Product/ProductDetail.tsx:156).
