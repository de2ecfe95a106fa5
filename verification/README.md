# A verified model of the ecommerce-web storefront logic

This project models, in Dafny, the sequential logic inside a React/TypeScript storefront with an admin area. It covers:

- **The authenticated HTTP client** (`src/utils/Axiosconfig.ts`). It adds the bearer header and turns `{status, code, message, data}` envelopes and HTTP errors into results or `{code, message}` rejections. It also coordinates a single-flight access-token refresh: a module-level `isRefreshing` flag, a FIFO list of waiting requests, three storage keys and a redirect to `/login`.
- **The shopping cart** (`src/context/CartContext.tsx`) and the cart page's total and ±1 buttons (`src/pages/CartPage.tsx`).
- **Pagination:**
  - the five-button window and the first/previous/next/last buttons (`src/components/ui/Pagination.tsx`);
  - the page/size state synchronised with the URL (`src/hooks/usePagination.ts`);
  - the catalogue's infinite query (`src/pages/ProductsPage.tsx`).
- **The mock catalogue service** (`src/api/productService.ts`): conjunctive filters, lookups and the rating append. It also covers review sorting and star counts (`src/components/product/ProductReviews.tsx`).
- **Small UI state machines:**
  - the confirm-before-toggle switch and the status toggle built on it (`ToggleSwitch.tsx`, `StatusToggle.tsx`), with the customer-status mutation that consumes the toggle (`src/pages/admin/AdminCustomers.tsx`);
  - the admin product form's change detector (`ProductModal.tsx`);
  - the product page's quantity stepper (`ProductDetailPage.tsx`);
  - the category badge colour lookup (`CategoryBadge.tsx`).

Each source file becomes one module, in the form the file has.

**Pure code becomes functions over datatypes, with lemmas.** Examples are `addToCart`, the page window and the review comparator.

**Code that updates state in place becomes a class** whose methods are proved against those functions:

| Class | Source state |
|---|---|
| `HttpClient` | the module-level refresh state, storage, redirect and outgoing requests |
| `PaginationState` | the page/size state and the URL query |
| `Catalog` | the mock arrays that `addProductRating` pushes into and patches |
| `Switch` | the switch's dialog state |
| `StatusToggleComponent` | the toggle's status and pending flag |
| `ImageState` | the form's chosen image and preview |
| `QuantityStepper` | the quantity state |
| `FilterPanel` | the mobile filter panel |

Helper modules model the JavaScript built-ins the code relies on:

- `Json`: optional chaining, truthiness and `||`.
- `JsNumber`: `Number(...)`, `parseInt(...)` and `String(...)` on integers, with `NaN`.
- `JsText`: `toLowerCase`, `includes`, `trim` and `replace(/\s+/g, "")`.
- `Seqs`: `reduce` sums, `filter` and subsequences.

`Wrappers` holds `Option`.

**How the refresh flow is modelled.** It is a sequential state machine. Its events are:

- a request is sent;
- a reply arrives;
- the refresh call completes.

The awaited refresh POST and the retry it triggers happen inside `RefreshStep`. The continuation a waiting request registers is represented by the request it will re-send.

**Behaviours of the code worth noting:**

- A request retried after a refresh goes through the same interceptor again. A second 401 starts another refresh (`NoRetryOnceGuard`). There is no retry-once guard.
- When the refresh fails, the waiting requests are neither re-sent nor rejected. They stay queued, and the flag is cleared (`RefreshStepOutcomes`).
- `productService.ts` is a mock whose signatures differ from its callers. It is modelled as written.

## Model

| member | source | states |
|---|---|---|
| AxiosConfig.Authorize | src/utils/Axiosconfig.ts:13-18 | the outgoing request carries `Bearer <token>` exactly when an access token is stored; otherwise it is the request unchanged; method, URL and body are never touched |
| AxiosConfig.HttpClient.Send | src/utils/Axiosconfig.ts:12-24 | sending appends exactly one request, for the same URL, with the header rule of `Authorize`; nothing else changes |
| AxiosConfig.OnFulfilled | src/utils/Axiosconfig.ts:38-48 | resolves to the envelope iff its `status` is `"success"`; otherwise rejects with the envelope's `code` and its `message`, or "An error occurred" when the message is falsy |
| AxiosConfig.OnRejected | src/utils/Axiosconfig.ts:49-133 | a non-401 never changes refresh state or storage; 403 rejects with code 403 and the reply's `message` when truthy, else "Access denied"; other failures with the status or 500 and the truthy `message`, else "Network error occurred"; a 401 without refresh token removes access token and user and redirects; a 401 on the refresh URL also clears the flag and the refresh token; other 401s queue the request while refreshing, or else set the flag and send the refresh POST |
| AxiosConfig.Logout | src/utils/Axiosconfig.ts:57-72 | removes exactly the named storage keys, keeps every other stored value, sets the redirect, and leaves the refresh flag, queue and sent requests alone |
| AxiosConfig.HttpClient.SubscribeTokenRefresh | src/utils/Axiosconfig.ts:29-31 | appends the waiting request at the end of the queue; nothing else changes |
| AxiosConfig.HttpClient.OnRefreshed | src/utils/Axiosconfig.ts:33-36 | the loop over the queue leaves exactly the state `RefreshedState` describes |
| AxiosConfig.RefreshedState | src/utils/Axiosconfig.ts:33-36 | every queued request is re-sent once, in queue order, with the new bearer token; the queue is left empty; flag, storage and redirect are unchanged |
| AxiosConfig.RetryAll | src/utils/Axiosconfig.ts:112-117 | the i-th re-sent request is the i-th waiting request with the new token's header, passed through the request interceptor |
| AxiosConfig.WithToken | src/utils/Axiosconfig.ts:112-117 | each request keeps everything but its header, which becomes `Bearer <token>` |
| AxiosConfig.RefreshStepOutcomes | src/utils/Axiosconfig.ts:75-109 | the original request is retried iff the refresh reply holds `data.data.accessToken` or `data.accessToken`; on success the token is stored, the flag cleared, waiting requests re-sent in order before the retry, and the queue emptied; on failure all three keys are removed, the flag is cleared, the browser redirected, and the queue kept as it was |
| AxiosConfig.HttpClient.CompleteRefresh | src/utils/Axiosconfig.ts:78-109 | the in-place update agrees with `RefreshStep` |
| AxiosConfig.HttpClient.Receive | src/utils/Axiosconfig.ts:38-133 | the in-place update agrees with `ReceiveStep` (success interceptor for 2xx, error interceptor otherwise) |
| AxiosConfig.HttpClient.constructor | src/utils/Axiosconfig.ts:26-27 | the client starts not refreshing, with no waiting request, no redirect and nothing sent |
| AxiosConfig.NoRetryOnceGuard | src/utils/Axiosconfig.ts:93-99 | after a successful refresh, a 401 for the retried request starts a second refresh POST |
| AxiosConfig.SingleFlight | src/utils/Axiosconfig.ts:110-117 | while a refresh is in flight, any sequence of non-refresh replies only appends the 401-rejected requests to the queue, in arrival order; no refresh call is sent |
| AxiosConfig.ConcurrentUnauthorizedShareOneRefresh | src/utils/Axiosconfig.ts:75-117 | one 401 followed by more 401s before the refresh returns produces exactly one refresh POST, then every queued request with the new token in order, then the first request's retry |
| AxiosConfig.RequestCall | src/utils/Axiosconfig.ts:152-169 | `request` returns or re-throws exactly the pipeline's outcome; a resolved envelope runs only `onSuccess`, with its `data`; a rejection carrying an HTTP reply runs only `onError`, with the reply's body; any other rejection runs only `onError`, with the rejected value |
| AxiosConfig.RequestOnForcedLogout | src/utils/Axiosconfig.ts:53-73 | a 401 with no refresh token, or on the refresh URL itself, rejects with the axios error; the access token and user are removed and the browser redirected; `request` then runs `onError` with the reply's body |
| AxiosConfig.RequestOnDirectReply | src/utils/Axiosconfig.ts:144-170 | for a reply other than 401, `onSuccess` runs iff the status is 2xx and the envelope says "success", and then receives the envelope's `data`; otherwise `onError` receives the `{code, message}` object that is thrown |
| CartContext.FindIndex | src/context/CartContext.tsx:48-50 | the first index whose product id matches, or -1 when none does |
| CartContext.AddToCart | src/context/CartContext.tsx:45-84 | an existing product's line gains `quantity` (default 1) in place and nothing else changes; a new product is appended as one line with that quantity, its price, and the first image (none for an empty list); the update throws iff the product is new and has no image list; the total is recomputed |
| CartContext.AddToCartTotals | src/context/CartContext.tsx:45-78 | when the update does not throw, the item count grows by the added quantity and the amount by quantity × the receiving line's price |
| CartContext.AddToCartKeepsProductsDistinct | src/context/CartContext.tsx:48-72 | when the update does not throw, distinct product ids stay distinct and the product is present afterwards |
| CartContext.RemoveFromCart | src/context/CartContext.tsx:87-104 | the result is a subsequence of the cart with no line for the product; every other line keeps exactly as many occurrences as it had; the total is recomputed |
| CartContext.RemoveUndoesAddOfNewProduct | src/context/CartContext.tsx:45-104 | adding a product the cart does not hold throws iff it has no image list; otherwise removing it again restores the original lines |
| CartContext.UpdateQuantity | src/context/CartContext.tsx:106-127 | a quantity below 1 leaves the cart unchanged; otherwise every matching line gets the quantity, every other line is kept, and the total is recomputed |
| CartContext.UpdateQuantityIdempotent | src/context/CartContext.tsx:106-127 | setting the same quantity twice is setting it once |
| CartContext.UpdateQuantityTotalItems | src/context/CartContext.tsx:106-127 | with distinct products, the item count changes by the new quantity minus the old one |
| CartContext.ClearCart | src/context/CartContext.tsx:129-131 | no lines, total 0, item count 0 |
| CartContext.WithItems | src/context/CartContext.tsx:75-78 | the stored total equals the sum of price × quantity over the lines |
| CartPage.TotalAmount | src/pages/CartPage.tsx:18-23 | the sum of price × quantity over the lines, or 0 when the items are undefined |
| CartPage.EmptyViewHasNoTotal | src/pages/CartPage.tsx:29 | whenever the empty view shows, the total is 0 |
| CartPage.ButtonsMoveTotalByOnePrice | src/pages/CartPage.tsx:119-131 | with distinct products, if the server sets the line to the requested quantity (`Apply`), the plus (minus) button raises (lowers) the total by exactly that line's price |
| CartPage.MinusPayload | src/pages/CartPage.tsx:119-121 | the minus button requests the line's product with its quantity minus one |
| CartPage.PlusPayload | src/pages/CartPage.tsx:128-130 | the plus button requests the line's product with its quantity plus one |
| CartPage.MinusCanRequestBelowOne | src/pages/CartPage.tsx:119-121 | on a line of quantity 1 or less the minus button requests a quantity below 1; from quantity 1 exactly 0 |
| CartPage.MinusThenPlusRestoresLines | src/pages/CartPage.tsx:119-131 | with distinct products, if the server applies each request as `Apply` says, minus and then plus on the same line gives back the original lines |
| Pagination.ButtonCount | src/components/ui/Pagination.tsx:27 | at most five buttons and never more than the pages; exactly five from five pages up |
| Pagination.PageWindow | src/components/ui/Pagination.tsx:24-34 | `min(5, totalPages)` indices; all pages when there are at most five; otherwise consecutive ascending indices inside `[0, totalPages)` |
| Pagination.WindowMarksCurrentOnce | src/components/ui/Pagination.tsx:100-110 | for a valid current page, exactly one button selects it, so exactly one is marked current |
| Pagination.NavigationTargets | src/components/ui/Pagination.tsx:37-60 | on a valid page every target is a valid page; back buttons are disabled iff they would stay put, else go one back; forward buttons likewise |
| Pagination.EmptyListForwardGoesToMinusOne | src/components/ui/Pagination.tsx:42-60 | with zero pages the forward buttons stay enabled and request page -1 |
| UsePagination.GetParam | src/hooks/usePagination.ts:20-21 | none iff no entry has the name; otherwise the value of the first entry with that name |
| UsePagination.SetParamSingle | src/hooks/usePagination.ts:42-43 | after `set`, exactly one entry has the name, with the new value |
| UsePagination.SetParamKeepsOthers | src/hooks/usePagination.ts:40-45 | `set` leaves every other name's entries as they were, in order |
| UsePagination.SyncedParamsSettles | src/hooks/usePagination.ts:40-45 | the sync writes one `page` and one `size` entry, keeps every other parameter, and a second run changes nothing |
| UsePagination.Initial | src/hooks/usePagination.ts:23-37 | an explicit option wins, else `Number(url value)`, else the default |
| UsePagination.UrlRoundTrip | src/hooks/usePagination.ts:23-45 | a hook mounted on the URL the sync wrote reads back the same page and size |
| UsePagination.PaginationState.constructor | src/hooks/usePagination.ts:23-37 | initial page and size follow `Initial` with defaults 0 and 10 |
| UsePagination.PaginationState.SyncUrl | src/hooks/usePagination.ts:40-45 | the query becomes `SyncedParams` of the old query; page and size are unchanged |
| UsePagination.PaginationState.HandlePageChange | src/hooks/usePagination.ts:48-50 | `paginationParams` becomes the new page with the size unchanged |
| UsePagination.PaginationState.HandlePageSizeChange | src/hooks/usePagination.ts:53-57 | the size becomes `parseInt` of the choice and the page resets to 0 |
| ProductService.GetProducts | src/api/productService.ts:7-42 | no filter returns all products in order; a filter returns the order-preserving subsequence of products meeting every supplied criterion |
| ProductService.ChainIsConjunction | src/api/productService.ts:13-39 | the five successive filter stages equal one filter by the conjunction of the active criteria |
| ProductService.FilteredProductsMatch | src/api/productService.ts:13-39 | every result matches every criterion, and every matching product is in the result |
| ProductService.SearchIgnoresTermCase | src/api/productService.ts:20-25 | lower-casing the search term does not change the result |
| ProductService.FalsyCriteria | src/api/productService.ts:15-33 | an empty category or search term filters nothing, while a minimum price of 0 still applies |
| ProductService.GetProductById | src/api/productService.ts:44-55 | the first product with the id, or a failure "Product not found" iff there is none |
| ProductService.FeaturedIsFeaturedFilter | src/api/productService.ts:57-62 | the featured products are exactly the result of the `featured: true` filter |
| ProductService.GetProductRatings | src/api/productService.ts:64-69 | exactly the ratings for the product, in their original order, each as many times as it occurs |
| ProductService.AppendedRatingSummary | src/api/productService.ts:86-93 | appending a rating adds one to that product's count and its value to its sum, and leaves other products' ratings alone |
| ProductService.Catalog.AddProductRating | src/api/productService.ts:71-96 | the new rating has id `String(length + 1)`, the creation timestamp, and is appended; the first product with its id gets as count the number of ratings now recorded for it, which replaces the stored count, and its average and update timestamp; no product changes when the id is unknown |
| ProductReviews.SortReviews | src/components/product/ProductReviews.tsx:13-21 | the sorted list is a permutation of the ratings, ordered by the chosen comparator |
| ProductReviews.SortOrders | src/components/product/ProductReviews.tsx:13-21 | highest rated is non-increasing in rating, lowest rated non-decreasing, recent non-increasing in creation time |
| ProductReviews.SortIsStable | src/components/product/ProductReviews.tsx:13 | reviews with equal sort keys keep their original relative order |
| ProductReviews.InsertPermutes | src/components/product/ProductReviews.tsx:13 | one insertion step adds exactly the inserted review |
| ProductReviews.InsertSorted | src/components/product/ProductReviews.tsx:13-21 | inserting into a sorted list keeps it sorted |
| ProductReviews.CountsCoverAllRatings | src/components/product/ProductReviews.tsx:32-40 | when every rating is in 1..5, the five counts sum to the number of ratings |
| ProductReviews.View | src/components/product/ProductReviews.tsx:23-40 | the empty state shows iff there are no ratings; otherwise the total is the number of ratings, the five counts are the per-star counts, the sum is the sum of the ratings, and the list is a permutation of the ratings sorted by the chosen order |
| ProductReviews.ViewCountsAddUpToTotal | src/components/product/ProductReviews.tsx:23-40 | for ratings all within 1..5, the five shown counts add up to the shown total |
| ProductReviews.Stars | src/components/product/ProductReviews.tsx:121-129 | five stars, star i filled iff i < rating |
| ProductReviews.FilledStars | src/components/product/ProductReviews.tsx:121-129 | the filled stars come first, and there are as many as the rating clamped to 0..5 |
| ToggleSwitch.ConfirmedClickToggles | src/components/ui/ToggleSwitch.tsx:62-80 | an enabled switch ends up calling `onToggle(!isActive)` exactly once: at once without confirmation, at confirm with it; cancel calls nothing and keeps the pending value |
| ToggleSwitch.Click | src/components/ui/ToggleSwitch.tsx:62-71 | a disabled switch changes and calls nothing; with confirmation it opens the dialog with `pendingState = !isActive` and calls nothing; otherwise it calls `onToggle(!isActive)` |
| ToggleSwitch.Confirm | src/components/ui/ToggleSwitch.tsx:73-76 | closes the dialog and calls `onToggle(pendingState)` |
| ToggleSwitch.Cancel | src/components/ui/ToggleSwitch.tsx:78-80 | closes the dialog and leaves `pendingState` as it was |
| ToggleSwitch.Variant | src/components/ui/ToggleSwitch.tsx:119 | "info" iff the pending state is true, else "warning" |
| ToggleSwitch.GetSizeClasses | src/components/ui/ToggleSwitch.tsx:36-58 | `sm` and `lg` get their own classes; every other size gets the medium ones |
| ToggleSwitch.Switch.constructor | src/components/ui/ToggleSwitch.tsx:33-34 | the dialog starts closed with pending state false |
| ToggleSwitch.Switch.HandleClick | src/components/ui/ToggleSwitch.tsx:62-71 | the in-place update and the call made agree with `Click` |
| ToggleSwitch.Switch.HandleConfirm | src/components/ui/ToggleSwitch.tsx:73-76 | the in-place update and the call made agree with `Confirm` |
| ToggleSwitch.Switch.HandleCancel | src/components/ui/ToggleSwitch.tsx:78-80 | the in-place update agrees with `Cancel` |
| StatusToggle.Mount | src/components/admin/StatusToggle.tsx:23 | the local status starts as the `isActive` prop, not pending, dialog closed |
| StatusToggle.SwitchProps | src/components/admin/StatusToggle.tsx:35-41 | the switch is disabled exactly while pending, always asks for confirmation, and shows the local status |
| StatusToggle.Title | src/components/admin/StatusToggle.tsx:41 | "Deactivate <entity>" when active, else "Activate <entity>" |
| StatusToggle.HandleToggle | src/components/admin/StatusToggle.tsx:29-32 | the status becomes the new one, the mutation is pending, and its payload is the negation of the status held before |
| StatusToggle.ConfirmedToggleSendsNewStatus | src/components/admin/StatusToggle.tsx:29-41 | click then confirm on an idle toggle flips the shown status and sends it as `isActive`; a click while pending does nothing |
| StatusToggle.StatusToggleComponent.constructor | src/components/admin/StatusToggle.tsx:23 | the component starts as `Mount` with nothing sent |
| StatusToggle.StatusToggleComponent.Click | src/components/admin/StatusToggle.tsx:35-41 | the in-place update agrees with `ClickSwitch` and sends nothing |
| StatusToggle.StatusToggleComponent.Confirm | src/components/admin/StatusToggle.tsx:29-32 | the in-place update agrees with `ConfirmSwitch` and the payload is appended to what was sent |
| StatusToggle.StatusToggleComponent.MutationSettled | src/components/admin/StatusToggle.tsx:25-27 | the pending flag clears; nothing else changes |
| AdminCustomers.ServerReceivesOldStatus | src/pages/admin/AdminCustomers.tsx:52-67 | as written, a confirmed toggle sends the customer's old status while the switch shows the new one |
| AdminCustomers.DeactivatingActiveCustomerSendsTrue | src/pages/admin/AdminCustomers.tsx:52-67 | deactivating an active customer sends `isActive: true` |
| AdminCustomers.ServerReceivesShownStatus | src/pages/admin/AdminCustomers.tsx:52-67 | with the payload passed through unchanged, the server receives exactly the status the switch shows |
| ProductModal.FormChanged | src/components/admin/ProductModal.tsx:55-62 | unchanged iff all six fields equal the product's, price and quantity compared as numbers |
| ProductModal.ImageChanged | src/components/admin/ProductModal.tsx:65-67 | changed iff a file was chosen, or the product had an image and the preview is cleared |
| ProductModal.HasChanges | src/components/admin/ProductModal.tsx:47-70 | always true without a product; otherwise a form change or an image change |
| ProductModal.SubmitDisabled | src/components/admin/ProductModal.tsx:349 | disabled iff pending, or editing with no changes; a create form is disabled only while pending |
| ProductModal.UntouchedFormHasNoChanges | src/components/admin/ProductModal.tsx:20-70 | an edit form left at its initial values, with the initial image, has no changes, so submit is disabled |
| ProductModal.MissingQuantityAlwaysChanged | src/components/admin/ProductModal.tsx:59 | a product record without a quantity always counts as changed |
| ProductModal.InitialPreview | src/components/admin/ProductModal.tsx:38-40 | the preview starts as the product's image when it has one, else none |
| ProductModal.MutationFor | src/components/admin/ProductModal.tsx:89-116 | an update of the product's id in edit mode, a create otherwise |
| ProductModal.FormDataParts | src/components/admin/ProductModal.tsx:118-147 | the product part with exactly the six fields first, then an image part iff a file was chosen |
| ProductModal.ImageState.constructor | src/components/admin/ProductModal.tsx:37-40 | no file, the initial preview |
| ProductModal.ImageState.ChangeImage | src/components/admin/ProductModal.tsx:72-82 | a chosen file replaces the current one and then counts as a change in edit mode; an empty selection changes nothing |
| ProductModal.ImageState.PreviewLoaded | src/components/admin/ProductModal.tsx:77-79 | the loaded data URL becomes the preview |
| ProductModal.ImageState.RemoveImage | src/components/admin/ProductModal.tsx:84-87 | file and preview both cleared; removing a product's stored image counts as a change; the next submit has no image part |
| ProductModal.ImageState.Submit | src/components/admin/ProductModal.tsx:118-147 | the body has an image part iff a file is held, and goes to the update or create endpoint |
| ProductDetailPage.InputQuantity | src/pages/ProductDetailPage.tsx:216-218 | always at least 1; the parsed value when it is at least 1, else 1 |
| ProductDetailPage.InputQuantityRoundTrip | src/pages/ProductDetailPage.tsx:216-218 | typing the digits of a quantity of at least 1 selects exactly that quantity |
| ProductDetailPage.QuantityStepper.constructor | src/pages/ProductDetailPage.tsx:20 | the quantity starts at 1 |
| ProductDetailPage.QuantityStepper.Increment | src/pages/ProductDetailPage.tsx:43-45 | one more, with no upper bound; the quantity stays at least 1 |
| ProductDetailPage.QuantityStepper.Decrement | src/pages/ProductDetailPage.tsx:47-51 | one less when the minus button is enabled (above 1), unchanged otherwise; stays at least 1 |
| ProductDetailPage.QuantityStepper.InputChanged | src/pages/ProductDetailPage.tsx:216-218 | the quantity becomes `InputQuantity` of the text, so at least 1 |
| ProductDetailPage.QuantityStepper.AddToCart | src/pages/ProductDetailPage.tsx:53-57 | with a loaded product the outcome is exactly `addToCart(product, quantity)`, and when it does not throw the item count grows by the quantity; without one the cart is unchanged |
| ProductsPage.NextPageParam | src/pages/ProductsPage.tsx:30-33 | the next page exists iff the last page is not the final one, and is then the following, valid, page |
| ProductsPage.QueryFor | src/pages/ProductsPage.tsx:29 | the category endpoint iff the route names a category, page size 9 either way |
| ProductsPage.FlattenAppendsPage | src/pages/ProductsPage.tsx:37 | each fetched page's products are appended after those already shown |
| ProductsPage.FlattenKeepsEveryProduct | src/pages/ProductsPage.tsx:37 | every product of every page is shown, at the offset of the pages before it |
| ProductsPage.Products | src/pages/ProductsPage.tsx:37 | no products before data arrives; afterwards every page's products concatenated in page order |
| ProductsPage.FetchesEveryPageOnce | src/pages/ProductsPage.tsx:29-35 | against a consistent server, scrolling fetches each remaining page once, in order, then stops |
| ProductsPage.FetchesAllPagesFromFirst | src/pages/ProductsPage.tsx:29-35 | starting from the initial parameter 0, pages 0..totalPages-1 are fetched |
| ProductsPage.EmptyListingFetchedOnce | src/pages/ProductsPage.tsx:29-35 | an empty listing is fetched once, as page 0 |
| ProductsPage.FilterPath | src/pages/ProductsPage.tsx:46-49 | "" navigates to `/products`, any other id to `/products/category/<id>` |
| ProductsPage.FilterPathRoundTrip | src/pages/ProductsPage.tsx:46-49 | the route reached by a filter choice names exactly that category, or none for "All Categories" |
| ProductsPage.ExactlyOneRadioChecked | src/pages/ProductsPage.tsx:85-102 | with distinct non-empty category ids, exactly one radio of the group is checked |
| ProductsPage.FilterPanel.constructor | src/pages/ProductsPage.tsx:16 | the mobile filter panel starts closed |
| ProductsPage.FilterPanel.ToggleFilterMobile | src/pages/ProductsPage.tsx:51-53 | the panel's open flag flips |
| CategoryBadge.NormalizeKey | src/components/category/CategoryBadge.tsx:25-27 | the key is lower-case and holds no whitespace |
| CategoryBadge.NormalizeKeyContents | src/components/category/CategoryBadge.tsx:25-27 | the key is the lower-cased name with exactly its whitespace removed: a subsequence of it, holding every non-whitespace character lower-cased, as long as the name's non-whitespace count |
| CategoryBadge.NormalizeKeyIdempotent | src/components/category/CategoryBadge.tsx:25-27 | normalising a key again changes nothing |
| CategoryBadge.ColorScheme | src/components/category/CategoryBadge.tsx:10-28 | always one of the ten table values: the entry for the key when there is one, else the default |
| CategoryBadge.SchemeIgnoresCaseAndSpacing | src/components/category/CategoryBadge.tsx:24-28 | a name and its normalised key get the same gradient |
| CategoryBadge.SchemeIgnoresCase | src/components/category/CategoryBadge.tsx:24-28 | upper-case letters make no difference to the gradient |
| CategoryBadge.EveryEntryReachable | src/components/category/CategoryBadge.tsx:10-28 | every table entry is what the name spelled as its key gets |
| CategoryBadge.UnknownNameGetsDefault | src/components/category/CategoryBadge.tsx:28 | a name outside the table gets the default gradient |
| CategoryBadge.ColorSchemeAsWritten | src/components/category/CategoryBadge.tsx:10-28 | as written: table keys get their entry, the inherited keys `constructor` and `__proto__` get the inherited member, all others the default |
| CategoryBadge.ConstructorNameIsNotAGradient | src/components/category/CategoryBadge.tsx:28 | as written, the name "constructor" yields the inherited `Object` constructor; the own-entry lookup gives the default |
| CategoryBadge.AsWrittenAgreesOffInheritedKeys | src/components/category/CategoryBadge.tsx:10-28 | away from the two inherited keys, both lookups agree |
| CategoryBadge.BadgeLink | src/components/category/CategoryBadge.tsx:34 | the badge links to the same route the catalogue's category filter navigates to |

## Left out

- **Network, browser and timing:**
  - The axios instance, its base URL, timeout and credentials.
  - `window.location`, and the `localStorage` persistence of the cart.
  - The `FileReader`, and the mock service's `delay`.
  - Storage is a map, the redirect a flag, and outgoing requests a list.
- **Promise interleaving.** The refresh flow is a sequential state machine over events, not concurrent tasks. Within one refresh the POST's own reply is processed before any other event.
- **`console.log` calls and toasts.**
- **The request interceptor's error handler** (Axiosconfig.ts:20-23). It only re-rejects.
- **React Query caching, invalidation and `isLoading` rendering.** Neither does the model enforce the react-hook-form validation rules.
- **Floating point.** Prices and ratings are integers.
  - ProductService.Catalog.AddProductRating: the average is kept as the sum of the product's ratings and their count, not as a float quotient.
  - The same holds for the review page's average and percentages.
  - `toFixed` and currency formatting are not part of this model.
- **JsNumber.ToNumber:** text denoting a fraction, an exponent, hexadecimal or `Infinity` is read as `NaN` rather than as the number it denotes. Only integers are modelled.
- **Date parsing.**
  - ProductReviews.SortReviews takes `createdOn` as an integer timestamp, standing for `new Date(createdOn).getTime()`.
  - An unparsable date (`NaN` in the comparator) is not modelled.
  - The timestamps `Date.now()` and `new Date().toISOString()` are parameters.
- **JsText.ToLower:** maps ASCII letters only. Unicode case mapping is not modelled.
- **CartContext.AddToCart** reads `product.images[0]`, a field the declared `Product` type (src/types/Product.ts) lacks; the catalogue records carry it. The image list is optional in the model: an empty list gives no image, and a missing one makes the cart update throw for a product not yet in the cart. React's handling of that exception is not part of this model.
- **CartPage.Apply** is an assumption, not a model of the page: it says the server sets the requested product's lines to the requested quantity and the page refetches them. The server side (src/api/cartService.ts:47-59 and the backend) is not part of this model. CartPage.ButtonsMoveTotalByOnePrice and CartPage.MinusThenPlusRestoresLines hold only under this assumption.
- **JsNumber.ParseInt** reads decimal digits only. Without a radix, JavaScript's `parseInt` reads a `0x` prefix as hexadecimal; the page-size select and the quantity input never supply one.
- **ProductModal** compares `product.quantity`, which the `Product` type does not declare. The model takes it as optional (`MissingQuantityAlwaysChanged`).
- **Form values.** The form's initial number values are represented by their decimal text, which `Number(...)` reads back unchanged (`UntouchedFormHasNoChanges`).
- **ProductsPage.ParamsFetched** bounds the number of scroll-triggered fetches by a fuel parameter, because the real page fetches only when the sentinel element becomes visible. The IntersectionObserver itself is not part of this model.
- **Admin tables, routing guards, thin service wrappers and pure view components.** These carry no logic beyond wiring. The exception is the customer-status mutation, which is modelled because it consumes the status toggle's payload.
- **Pagination.EmptyListForwardGoesToMinusOne** records what the component does with zero pages. The admin pages pass `totalPages || 1`, so zero never reaches it from this repository.

## Findings

| source | as written | input that shows it | evidently intended | confidence | as-written member | corrected member |
|---|---|---|---|---|---|---|
| src/pages/admin/AdminCustomers.tsx:58 | the mutation sends `{isActive: !isActive}`, but the status toggle's payload is already the new status (`!status`, StatusToggle.tsx:31), so the server is asked to store the old status | an active customer: click the switch, confirm; the switch shows inactive, the server receives `isActive: true` | send the payload's `isActive` unchanged, so the server stores what the switch shows | not executed; follows directly from the two negations | AdminCustomers.ServerReceivesOldStatus | AdminCustomers.ServerReceivesShownStatus |
| src/components/category/CategoryBadge.tsx:28 | `colorSchemes[key]` on an object literal also finds inherited members; the keys `constructor` and `__proto__` survive the normalisation and yield a truthy non-string, so the default is not used | a category named "constructor" (or "Constructor") | look up only the table's own ten entries, falling back to `default` | not executed; standard object-literal lookup semantics | CategoryBadge.ConstructorNameIsNotAGradient | CategoryBadge.ColorScheme |
