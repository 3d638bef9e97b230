# Verified model of the React.js milestone apps' logic

This project models in Dafny the logic of several small front-end apps and proves properties of it:

- **To-do list** (`fend_mm3/index.js`): tasks are added to the front, deleted by id, toggled and edited. A completed task moves to the end and a re-opened one to the front. The whole list is kept in one storage slot.
- **Sign-up / sign-in form** (`fend_mm7/.../AuthForm.tsx`): per-field rules, whole-form validation in the current mode, and live validation of touched fields. It also covers the touched/errors bookkeeping of submit and of the mode switch.
- **Admin product table** (`fend_mm5/.../ProductList.tsx`): pagination arithmetic, newest-first ordering of a fetched page, and the derived table cells.
- **Add/edit product form** (`fend_mm5/.../AddProduct.tsx`): the submit decision table (field check, image precedence, create or update) and the image-selection handlers.
- **Storefront derivations:**
  - cart totals and the empty/non-empty display condition;
  - the product page's counter, selections, image fallback and add-to-cart payload;
  - the mapping of API records to catalogue and detail records;
  - the category sections and their dividers.

Each component or script that updates its state through handlers (the to-do list, the auth form, the product table, the add-product form, the product page) becomes a class whose methods have `modifies` frames. The `useState` hooks of `fetchProductDetail.tsx` and `mockApiService.tsx`, whose only updates are the start and the end of one request, are modelled as pure state-transition functions instead. Each method's `ensures` ties the new state to a specification function, and lemmas prove what the source promises about that function. Pure expressions become functions with lemmas. Prices are exact `real`s. Requests, storage, the clock and `encodeURIComponent` are inputs or parameters.

Files:
- `text.dfy`: ECMAScript white space and `trim`, decimal printing of integers, `indexOf`/`includes`/`replace` with a string pattern, `split(c)[0]` and `slice(0, n)`;
- `todo.dfy`;
- `auth_form.dfy`;
- `product_list.dfy`;
- `add_product.dfy`;
- `cart_page.dfy`;
- `product_detail.dfy`;
- `fetch_detail.dfy`;
- `listing.dfy`.

## Model

| member | source | states |
|---|---|---|
| Text.LeadingSpace | fend_mm3/index.js:289 | the count covers only white space and stops at the first other character, or at the end |
| Text.TrailingStart | fend_mm3/index.js:289 | only white space follows the cut, and the character before it is not white space |
| Text.TrimShape | fend_mm3/index.js:289 | `trim()` yields the contiguous piece of the input that starts where the leading white space ends |
| Text.TrimSurround | fend_mm3/index.js:289 | only white space precedes and follows the trimmed piece |
| Text.TrimEdges | fend_mm3/index.js:289 | the trimmed text neither starts nor ends with white space |
| Text.TrimEmptyIff | fend_mm3/index.js:289-294 | `trim() === ""` exactly when the input is empty or all white space |
| Text.TrimIdempotent | fend_mm3/index.js:249 | trimming twice equals trimming once |
| Text.NatToStringRoundTrip | fend_mm3/index.js:180 | the decimal digits of a natural number are non-empty, all digits, and read back to the number |
| Text.IntToStringRoundTrip | fend_mm3/index.js:180 | reading back `String(i)` gives `i` |
| Text.IntToStringInjective | fend_mm3/index.js:180 | two integers print the same exactly when they are equal, so distinct clock values give distinct task ids |
| Text.IndexOfFrom | fend_mm5/src/pages/ProductList.tsx:153 | the result is the first occurrence at or after the start position, or None when there is none |
| Text.ContainsIff | fend_mm7/src/pages/listing/mockApiService.tsx:35 | `includes` holds exactly when the pattern occurs at some position |
| Text.ReplaceFirstSpec | fend_mm5/src/pages/ProductList.tsx:153 | `replace` with a string pattern rewrites only the first occurrence, and leaves a text without the pattern unchanged |
| Text.ReplaceFirstAtStart | fend_mm5/src/pages/ProductList.tsx:153 | a text that begins with the pattern gets that prefix replaced |
| Text.BeforeFirst | fend_mm5/src/pages/ProductList.tsx:162 | `split(c)[0]` is the prefix before the first `c`: it contains no `c`, and it is followed by `c` unless it is the whole text |
| Text.Take | fend_mm7/src/pages/products/ProductDetail.tsx:104 | `slice(0, n)` is the prefix of length min(n, length) |
| Todo.FindIndex | fend_mm3/index.js:218-219 | `findIndex` gives the first index with the id, or None (-1) exactly when no task has it |
| Todo.WithoutId | fend_mm3/index.js:201 | the filter leaves no task with the id and drops exactly as many tasks as carried it |
| Todo.Edited | fend_mm3/index.js:256-261 | the `map` changes only the text of tasks whose id is the current edit id; ids, flags, length and positions are kept |
| Todo.WithoutIdMembers | fend_mm3/index.js:201 | a task survives deletion exactly when it was present and has another id |
| Todo.WithoutIdConcat | fend_mm3/index.js:201 | deletion distributes over concatenation, so the kept tasks stay in their relative order |
| Todo.WithoutUnknownId | fend_mm3/index.js:201 | deleting an id that no task has leaves the list unchanged |
| Todo.CountIdPositive | fend_mm3/index.js:201 | some task carries the id exactly when its count is positive |
| Todo.DeleteShrinksIff | fend_mm3/index.js:201 | deletion shortens the list exactly when the id is present |
| Todo.ToggleUnknown | fend_mm3/index.js:218-219 | toggling an unknown id is a no-op |
| Todo.ToggleSpec | fend_mm3/index.js:218-231 | toggling keeps the length and the tasks, with one flag flipped; the toggled task goes last when now completed and first otherwise; the others keep their order |
| Todo.ToggleTwice | fend_mm3/index.js:210-236 | for a unique id, toggling twice restores the flag and the order of the other tasks; the task ends last if it started completed and first if it started open |
| Todo.EditFormBlockedByTaskInput | fend_mm3/index.js:270-284 | the edit form's submit guard reads the add-task input, so an empty add-task input blocks a non-blank edit |
| Todo.TodoList.constructor | fend_mm3/index.js:331 | at start-up nothing is being edited, and the list is the stored list if there is one, else empty |
| Todo.TodoList.LoadTasks | fend_mm3/index.js:40-46 | a stored value replaces the list; with no stored value the list is unchanged |
| Todo.TodoList.SaveTasks | fend_mm3/index.js:49-51 | the slot holds the current list |
| Todo.TodoList.AddTask | fend_mm3/index.js:178-190 | an open task with the clock-derived id goes in front of the old list, and the list is saved |
| Todo.TodoList.SubmitTaskForm | fend_mm3/index.js:286-300 | input is accepted exactly when it is not all white space; accepted input adds its trimmed text in front; rejected input changes neither the list nor the slot |
| Todo.TodoList.DeleteTask | fend_mm3/index.js:193-207 | the list becomes `WithoutId` of the old list and is saved |
| Todo.TodoList.ToggleTaskCompletion | fend_mm3/index.js:210-236 | the splice/push/unshift sequence yields `Toggled` of the old list; it saves only when the id was found |
| Todo.TodoList.OpenEditModal | fend_mm3/index.js:239-246 | the edit id is set, and the input prefilled with that task's text, exactly when a task has the id; otherwise nothing changes |
| Todo.TodoList.SaveEditedTask | fend_mm3/index.js:248-268 | a blank edit is rejected with no change; otherwise the list becomes `Edited` with the trimmed text and is saved |
| Todo.TodoList.SubmitEditForm | fend_mm3/index.js:270-284 | as written: it saves only when both the add-task input and the edit input are non-blank |
| Todo.TodoList.SubmitEditFormIntended | fend_mm3/index.js:270-284 | as intended: it saves exactly when the edit input is non-blank |
| Todo.SaveThenLoad | fend_mm3/index.js:40-51 | saving and then loading gives back the same list |
| AuthForm.WithValue | fend_mm7/src/pages/Profile/AuthForm.tsx:96-99 | setting one field changes that field only |
| AuthForm.EmailLikeIff | fend_mm7/src/pages/Profile/AuthForm.tsx:40 | the explicit e-mail test holds exactly when some substring matches `\S+@\S+\.\S+` as a whole (the pattern is unanchored) |
| AuthForm.ValidateField | fend_mm7/src/pages/Profile/AuthForm.tsx:34-53 | no error exactly when the field meets its rule; for each failing case, which message appears, with the empty checks taking precedence |
| AuthForm.ErrorsForUnique | fend_mm7/src/pages/Profile/AuthForm.tsx:55-89 | an error map is determined by the form, the mode and the set of fields it covers |
| AuthForm.RelevantFieldsCount | fend_mm7/src/pages/Profile/AuthForm.tsx:110-116 | sign-up covers four fields; sign-in covers two, and never name or confirmation |
| AuthForm.ValidateForm | fend_mm7/src/pages/Profile/AuthForm.tsx:55-72 | the result holds exactly the mode's fields that have an error, each with its message; sign-in never has name or confirmation |
| AuthForm.ValidateTouched | fend_mm7/src/pages/Profile/AuthForm.tsx:75-89 | live validation reports exactly the touched fields that have an error, and nothing else |
| AuthForm.TouchedOnSubmit | fend_mm7/src/pages/Profile/AuthForm.tsx:110-117 | the loop marks exactly the mode's fields |
| AuthForm.NoErrorsIff | fend_mm7/src/pages/Profile/AuthForm.tsx:119-122 | an error map is empty exactly when every covered field meets its rule |
| AuthForm.SignInSkipsNothing | fend_mm7/src/pages/Profile/AuthForm.tsx:61-63 | in sign-in mode the mode filter removes no error that `validateField` would report |
| AuthForm.AuthFormState.constructor | fend_mm7/src/pages/Profile/AuthForm.tsx:21-32 | the form starts in sign-up mode, empty, with no errors, no touched field and no auth error |
| AuthForm.AuthFormState.HandleInputChange | fend_mm7/src/pages/Profile/AuthForm.tsx:96-99 | only the edited field changes; the auth error is cleared; the errors are those of the touched fields |
| AuthForm.AuthFormState.HandleBlur | fend_mm7/src/pages/Profile/AuthForm.tsx:101-104 | the field joins the touched set and the errors are revalidated |
| AuthForm.AuthFormState.HandleSubmit | fend_mm7/src/pages/Profile/AuthForm.tsx:106-122 | exactly the mode's fields become touched; the identity provider is called exactly when there are no errors, that is, when every relevant field is valid; the identity provider is called exactly when the submit button is enabled outside a pending call |
| AuthForm.AuthFormState.SubmitDisabled | fend_mm7/src/pages/Profile/AuthForm.tsx:347 | the submit button is disabled exactly when a call is pending or some touched field fails its rule; the pending flag `isSubmitting` is a parameter |
| AuthForm.AuthFormState.ToggleAuthMode | fend_mm7/src/pages/Profile/AuthForm.tsx:208-214 | the mode is set, and errors, touched fields and the auth error are cleared |
| ProductList.Offset | fend_mm5/src/pages/ProductList.tsx:34-35 | for a page of at least 1, the offset is a non-negative multiple of 10 that skips page − 1 full pages |
| ProductList.OffsetSteps | fend_mm5/src/pages/ProductList.tsx:35 | page 1 starts at 0, and each page starts 10 after the previous one |
| ProductList.TotalPages | fend_mm5/src/pages/ProductList.tsx:36 | this is the least page count whose pages hold all products (the ceiling) |
| ProductList.PageNumbers | fend_mm5/src/pages/ProductList.tsx:211 | the buttons are exactly 1..totalPages, strictly increasing |
| ProductList.ShowPaginationIff | fend_mm5/src/pages/ProductList.tsx:195 | the bar is shown exactly when there are at least two pages |
| ProductList.SortIsNewestFirst | fend_mm5/src/pages/ProductList.tsx:44-46 | the sorted page is ordered by creation time, newest first |
| ProductList.SortIsPermutation | fend_mm5/src/pages/ProductList.tsx:44-46 | sorting is a permutation of the fetched page |
| ProductList.SortIsStable | fend_mm5/src/pages/ProductList.tsx:44-46 | products created at the same time keep their relative order |
| ProductList.SortKeepsProducts | fend_mm5/src/pages/ProductList.tsx:44-47 | sorting keeps the number of products and every product |
| ProductList.Timestamp | fend_mm5/src/pages/ProductList.tsx:45 | a product sorts by its `creationAt`, and one without `creationAt` sorts as if created at time 0 |
| ProductList.ShortDescription | fend_mm5/src/pages/ProductList.tsx:162 | the description cell is the longest prefix of the description without a period; it is the whole description or is followed by a period |
| ProductList.ImageSrc | fend_mm5/src/pages/ProductList.tsx:153 | the image source is never empty, and a product without images shows the placeholder |
| ProductList.ImageSrcRewritesRemote | fend_mm5/src/pages/ProductList.tsx:153 | a first image under the remote files path is shown through `/files/` |
| ProductList.ImageSrcKeepsOther | fend_mm5/src/pages/ProductList.tsx:153 | any other non-empty first image is used unchanged |
| ProductList.ImageSrcEmptyFirst | fend_mm5/src/pages/ProductList.tsx:153 | an empty first image falls back to the placeholder |
| ProductList.ProductListPage.constructor | fend_mm5/src/pages/ProductList.tsx:24-27 | the page starts at the requested page, with no products and a total of 0 |
| ProductList.ProductListPage.UpdatePage | fend_mm5/src/pages/ProductList.tsx:58-62 | a page below 1 is ignored; any other page is taken |
| ProductList.ProductListPage.GoPrevious | fend_mm5/src/pages/ProductList.tsx:197-199 | "Previous" does nothing on page 1 and otherwise moves back one page |
| ProductList.ProductListPage.GoNext | fend_mm5/src/pages/ProductList.tsx:225-227 | "Next" does nothing on the last page and otherwise moves forward one page |
| ProductList.ProductListPage.ReceiveProducts | fend_mm5/src/pages/ProductList.tsx:44-48 | the shown products are the fetched page sorted newest first; the total is the full list's length |
| AddProduct.Decide | fend_mm5/src/pages/AddProduct.tsx:63-113 | an empty field gives the fill-all-fields error, and only then; an upload failure gives the upload error, and only then; otherwise the payload carries the fields, category 1 and the image list by precedence (uploaded file, then the product's images, then the placeholder); it updates exactly when the product has a non-zero id |
| AddProduct.EmptyImagesOnlyFromEditedProduct | fend_mm5/src/pages/AddProduct.tsx:82-88 | a request with no image at all happens exactly when an edited product with an empty image array is resubmitted without a new file |
| AddProduct.ZeroIdCreates | fend_mm5/src/pages/AddProduct.tsx:99 | a product with id 0 is created, not updated, since 0 is falsy |
| AddProduct.AddProductForm.constructor | fend_mm5/src/pages/AddProduct.tsx:21-44 | a new form is empty; an edited product prefills the fields and previews its first image when that image is a non-empty string, and shows no preview otherwise |
| AddProduct.AddProductForm.HandleImageChange | fend_mm5/src/pages/AddProduct.tsx:46-52 | a picked file is selected and previewed; no file changes nothing |
| AddProduct.AddProductForm.HandleFieldChange | fend_mm5/src/pages/AddProduct.tsx:186 | typing replaces the text of that field only |
| AddProduct.AddProductForm.RemoveImage | fend_mm5/src/pages/AddProduct.tsx:54-57 | both the selected file and the preview are cleared |
| AddProduct.AddProductForm.HandleProductSubmit | fend_mm5/src/pages/AddProduct.tsx:63-121 | it sends exactly the request `Decide` gives, and nothing when `Decide` reports an error; the toast matches the outcome and the request's success |
| CartPage.SubtotalConcat | fend_mm7/src/pages/cart/CartPage.tsx:23-26 | the fold over two concatenated carts is the sum of the two folds |
| CartPage.SubtotalIsSum | fend_mm7/src/pages/cart/CartPage.tsx:23-26 | the left fold equals the front-first sum of price × quantity |
| CartPage.SubtotalNonNegative | fend_mm7/src/pages/cart/CartPage.tsx:23-26 | non-negative prices and quantities give a non-negative subtotal |
| CartPage.Totals | fend_mm7/src/pages/cart/CartPage.tsx:22-29 | the subtotal is the sum of the lines; the discount is a fifth of it; the fee is 15; total = subtotal − discount + fee = 0.8 · subtotal + 15 |
| CartPage.EmptyCartTotals | fend_mm7/src/pages/cart/CartPage.tsx:23-29 | an empty cart has subtotal and discount 0 and total 15 |
| CartPage.TotalOfAppended | fend_mm7/src/pages/cart/CartPage.tsx:23-29 | adding a line raises the total by 80% of that line |
| CartPage.ShowEmptyMessage | fend_mm7/src/pages/cart/CartPage.tsx:83 | the empty-cart message shows exactly when the cart has no line |
| CartPage.ShowSummary | fend_mm7/src/pages/cart/CartPage.tsx:184 | the order summary shows exactly when the cart has at least one line, that is, exactly when the empty-cart message does not |
| CartPage.ShowDividerAfter | fend_mm7/src/pages/cart/CartPage.tsx:175 | a divider is drawn under every line but the last |
| ProductDetail.CounterSteps | fend_mm7/src/pages/products/ProductDetail.tsx:24-32 | the counter stays at 1 or above; decrement undoes increment; decrement is a no-op exactly at 1 |
| ProductDetail.DisplayImages | fend_mm7/src/pages/products/ProductDetail.tsx:80-83 | the shown list is never empty: it is the product's images, or the single placeholder |
| ProductDetail.ThumbnailsShape | fend_mm7/src/pages/products/ProductDetail.tsx:104 | there are between 1 and 3 thumbnails, the first of the shown images |
| ProductDetail.MainImage | fend_mm7/src/pages/products/ProductDetail.tsx:127 | the main image is defined exactly when the selected index is within the shown list |
| ProductDetail.ThumbnailSelectsMainImage | fend_mm7/src/pages/products/ProductDetail.tsx:104-127 | clicking a thumbnail shows that image as the main image |
| ProductDetail.ScreenFor | fend_mm7/src/pages/products/ProductDetail.tsx:50-77 | checked in order: loading, then error, then missing data, then the product |
| ProductDetail.FirstFetchScreen | fend_mm7/src/pages/products/ProductDetail.tsx:50-77 | after the first fetch, the product screen shows when it succeeded and the error screen when it failed |
| ProductDetail.PayloadFor | fend_mm7/src/pages/products/ProductDetail.tsx:37-45 | the payload carries id, name as title, price, the chosen colour, size and quantity, and the raw first image (undefined when there is none) |
| ProductDetail.ProductDetailView.constructor | fend_mm7/src/pages/products/ProductDetail.tsx:16-19 | the view starts with quantity 1, size "Small", colour "olive" and image 0 |
| ProductDetail.ProductDetailView.IncrementQuantity | fend_mm7/src/pages/products/ProductDetail.tsx:24-26 | it adds exactly 1 |
| ProductDetail.ProductDetailView.DecrementQuantity | fend_mm7/src/pages/products/ProductDetail.tsx:28-32 | it subtracts 1 only above 1, so the quantity stays at 1 or above |
| ProductDetail.ProductDetailView.SelectSize | fend_mm7/src/pages/products/ProductDetail.tsx:196 | the clicked size becomes the selection |
| ProductDetail.ProductDetailView.SelectColor | fend_mm7/src/pages/products/ProductDetail.tsx:164-178 | the clicked colour becomes the selection |
| ProductDetail.ProductDetailView.SelectImage | fend_mm7/src/pages/products/ProductDetail.tsx:112 | the clicked thumbnail index becomes the selection |
| ProductDetail.ProductDetailView.HandleAddToCart | fend_mm7/src/pages/products/ProductDetail.tsx:33-49 | with data, it dispatches the payload for the current choices and shows the toast; without data, it does nothing |
| ProductDetail.PayloadQuantityPositive | fend_mm7/src/pages/products/ProductDetail.tsx:42 | a dispatched quantity is at least 1 |
| FetchDetail.NameOr | fend_mm7/src/pages/products/fetchProductDetail.tsx:32 | the or-default: the name when present and non-empty, else the fallback |
| FetchDetail.MapDetail | fend_mm7/src/pages/products/fetchProductDetail.tsx:27-34 | the id reads back to the numeric id; name, price and description are copied; images default to []; the category defaults to 'Unknown' |
| FetchDetail.MapDetailIdsDistinct | fend_mm7/src/pages/products/fetchProductDetail.tsx:28 | detail ids are equal exactly when the API ids are |
| FetchDetail.StartFetch | fend_mm7/src/pages/products/fetchProductDetail.tsx:21 | the fetch raises loading and changes nothing else |
| FetchDetail.FinishFetch | fend_mm7/src/pages/products/fetchProductDetail.tsx:36-42 | success sets the mapped data; failure sets the error message and keeps the data; loading ends in every case |
| FetchDetail.FirstFetchOutcome | fend_mm7/src/pages/products/fetchProductDetail.tsx:14-42 | after the first fetch, exactly one of data and error is set, and data exactly on success |
| Listing.ImageUrlIsPlaceholder | fend_mm7/src/pages/listing/mockApiService.tsx:35 | every card image is on the placeholder host; a first image that is already there is kept |
| Listing.CategoryAt | fend_mm7/src/pages/listing/mockApiService.tsx:37 | every item is a new arrival or casual |
| Listing.ToClothingItem | fend_mm7/src/pages/listing/mockApiService.tsx:31-38 | the id reads back to the numeric id; name and price are copied; the category name defaults to "unknown"; the category is new arrivals exactly for indices below 4 |
| Listing.MapItems | fend_mm7/src/pages/listing/mockApiService.tsx:23-38 | the mapping keeps length and order, and maps each item with its own index |
| Listing.ItemsByCategory | fend_mm7/src/pages/listing/Clothing.tsx:66-68 | the result is no longer than the list, and every kept item has the category |
| Listing.ItemsByCategoryMembers | fend_mm7/src/pages/listing/Clothing.tsx:66-68 | an item is kept exactly when it is in the list with that category |
| Listing.ItemsByCategoryConcat | fend_mm7/src/pages/listing/Clothing.tsx:66-68 | filtering distributes over concatenation, so order is kept |
| Listing.CategoriesPartition | fend_mm7/src/pages/listing/mockApiService.tsx:37 | the new arrivals are the first min(4, n) mapped items and the casual items are the rest, both in order |
| Listing.FinishListing | fend_mm7/src/pages/listing/mockApiService.tsx:16-48 | success sets the mapped items; failure sets the error message and keeps the items; loading ends |
| Listing.CatalogueFor | fend_mm7/src/pages/listing/Clothing.tsx:70-104 | loading text, then the error, then the sections; each section shows when non-empty; the middle divider shows exactly when both are non-empty, the bottom one when either is; the error text is the stored error message |
| Listing.FirstFetchSections | fend_mm7/src/pages/listing/Clothing.tsx:91-104 | after fetching n items: new arrivals and the bottom divider show exactly when n > 0, the casual section and the middle divider exactly when n > 4 |

## Left out

- DOM rendering, toasts and their timers, animations, the date header and navigation: these are presentation. Each 300 ms delayed body in `fend_mm3/index.js` is one atomic step.
- The null-element crash in `deleteTask` (`fend_mm3/index.js:197`) when no rendered element has the id: the model deletes regardless.
- `localStorage` and JSON: the slot is `Option<seq<Task>>`. `JSON.parse` is unguarded, so a malformed stored value would throw, and the model makes no claim about one. A stored empty string is falsy in `loadTasks` and is modelled as no stored value.
- `Date.now()`: the clock is a parameter of `AddTask`. `IntToString` does not model the exponent notation JavaScript uses for numbers of 10^21 and above.
- The Amplify sign-up/sign-in/`getCurrentUser` calls, the setting of `isSubmitting` around them and the navigation after login (`AuthForm.tsx:123-204`): these are foreign calls. `HandleSubmit` returns whether they would be called, and `SubmitDisabled` takes the pending flag as a parameter.
- AuthForm.ValidateField: `value.length` counts UTF-16 code units; the model counts code points.
- Listing.ToClothingItem: `slice(0, 10)` counts UTF-16 code units; the model counts code points. `encodeURIComponent` is an uninterpreted parameter.
- Every axios request, and the dev-server proxy behind `/files/` and `/api`: responses, upload results and request success are inputs.
- The cart reducer `store/slice/cartSlice` is not part of this model: dispatched actions (add, remove, increase, decrease) are returned as values or not modelled, and the cart is an input.
- CartPage.Totals: uses exact reals and does not model floating-point rounding or `toFixed(2)`.
- AddProduct.Decide: the price stays the form text; `Number(price)` and its `NaN` case are not modelled.
- ProductList.SortIsNewestFirst: `creationAt` is an integer timestamp; `new Date(...)` string parsing is not modelled.
- The in-place `Array.prototype.sort` is the library's, so only its result is modelled: `SortNewestFirst`, a stable insertion sort.
- `parseInt` of the `page` query parameter is not modelled: `ProductListPage` receives the parsed page.
- The delete popup and edit navigation of the product table, the profile screen, the route guard and the presentation components are not modelled: they carry no logic beyond requests and navigation.

## Findings

| source | as written | input that shows it | evidently intended | confidence | as-written member | corrected member |
|---|---|---|---|---|---|---|
| fend_mm3/index.js:270-284 | the edit form's submit handler tests `taskInput` (the add-task box) for blankness before saving the edit | add-task input `""`, edit input `"Buy milk"`: this handler does not save the edit and shows the add form's error; with a non-blank add box it saves a second time and clears the add box. The save button (`index.js:308`) and the Enter key (`index.js:316-321`) save through `saveEditedTask` on their own, so whether the page loses an edit depends on markup that is not part of this model | test only the edit input, as the save button and the Enter key do through `saveEditedTask` | medium, not executed | Todo.TodoList.SubmitEditForm, Todo.EditFormBlockedByTaskInput | Todo.TodoList.SubmitEditFormIntended |
