# eStore view-state core, in Dafny

A model of the pure state transitions under the eStore Android shopping app:

- **Catalog browse state** (`HomeViewModel`): the case-insensitive search and
  category filter over the product snapshot, the search and category setters,
  and the two-fetch load / retry with its error reporting.
- **Auth form** (`AuthViewModel`): prioritised e-mail and password messages,
  the confirm-password check, the gate in front of the identity service and
  the mapping of its `Result` onto `AuthState`.
- **Checkout form** (`CheckoutViewModel`): the `isValid` flag (non-blank
  address and a chosen payment method), recomputed after every edit and after
  a successful location lookup; a failed lookup records its message and
  leaves the flag as it was.
- **Product page and favourites** (`ProductDetailsViewModel` over
  `FavoriteDao`): loading one product, and the favourite toggle over a
  table keyed by product id with insert-or-replace, delete, existence and a
  newest-first listing.

Every operation is a pure function from an immutable state record (plus the
fetch results, the clock or the permission answer as parameters) to a new
state record. Kotlin's nullable values are `Option`, `kotlin.Result` is
`Result` with a `Fault` whose message may be absent (module `Outcomes`).

Files: `outcomes.dfy`, `text.dfy` (case-insensitive `contains`,
`isBlank`, UTF-16 length), `catalog.dfy` (`Product`), `home.dfy`,
`auth.dfy`, `checkout.dfy`, `favorites.dfy`, `product_details.dfy`.

## Behaviour of the code worth knowing

- A successful load sets the visible list to the whole new snapshot
  (`HomeViewModel.kt:48`); it does not re-apply an active query or category.
  `Home.RetryIgnoresActiveQuery` exhibits a retry with "shirt" typed that
  still shows a mug, and `Home.SuccessfulLoadConsistency` states exactly when
  a load leaves the list consistent with the filter.
- A failed load keeps the previous snapshot, categories and visible list
  (`HomeViewModel.kt:54-60`); nothing is discarded.

## Key type

`FavoriteProduct.id` is declared `Int`, while the DAO's queries, the
navigation route and the product grid pass product ids as `String`. The model
uses one key type, `Catalog.ProductId` (a string), for the product, the route
argument and the table's primary key. `domain/Product.kt` is not part of this
model; the fields of `Catalog.Product` are those the view models read.

## Model

| member | source | states |
|---|---|---|
| Outcomes.MessageOr | app/src/main/java/uk/ac/tees/mad/estore/ui/screens/home/HomeViewModel.kt:58 | `e.message ?: fallback`: the fault's message when it has one, the fallback otherwise (also at AuthViewModel.kt:48 and :65, CheckoutViewModel.kt:88, ProductDetailsViewModel.kt:54) |
| Text.LowerAscii | app/src/main/java/uk/ac/tees/mad/estore/ui/screens/home/HomeViewModel.kt:77-78 | the case fold used by the search: each upper-case ASCII letter maps to the lower-case letter at the same alphabet position, every other character to itself |
| Text.CharEqualsIgnoreCaseCases | app/src/main/java/uk/ac/tees/mad/estore/ui/screens/home/HomeViewModel.kt:77-78 | two characters match ignoring case iff they are equal or are the two cases of one ASCII letter (code points 32 apart) |
| Text.ContainsIgnoreCase | app/src/main/java/uk/ac/tees/mad/estore/ui/screens/home/HomeViewModel.kt:77-78 | true exactly when some offset of the text starts a copy of the query, compared character by character ignoring case |
| Text.ContainsEmpty | app/src/main/java/uk/ac/tees/mad/estore/ui/screens/home/HomeViewModel.kt:77-78 | every text contains the empty query, so an empty search keeps every product |
| Text.NoFirstCharacterNoMatch | app/src/main/java/uk/ac/tees/mad/estore/ui/screens/home/HomeViewModel.kt:77-78 | a text in which no character folds to the query's first character does not contain the query |
| Text.IsWhitespaceTable | app/src/main/java/uk/ac/tees/mad/estore/ui/screens/checkout/CheckoutViewModel.kt:107 | the whitespace that `isBlank` skips: ASCII tab to carriage return and the four separators 28-31 plus space; no-break and figure spaces count, zero-width space, NEL and BOM do not; no letter or digit is whitespace |
| Text.TrimStart | app/src/main/java/uk/ac/tees/mad/estore/ui/screens/checkout/CheckoutViewModel.kt:107 | dropping leading whitespace leaves a suffix of the input that is empty or starts with a non-whitespace character, and everything dropped is whitespace |
| Text.IsBlankIffTrimsToEmpty | app/src/main/java/uk/ac/tees/mad/estore/ui/screens/checkout/CheckoutViewModel.kt:107 | `isBlank` (every character whitespace) holds iff trimming leading whitespace leaves nothing |
| Text.IsBlankConcat | app/src/main/java/uk/ac/tees/mad/estore/ui/screens/checkout/CheckoutViewModel.kt:107 | a concatenation is blank iff both parts are blank |
| Text.Utf16Length | app/src/main/java/uk/ac/tees/mad/estore/ui/screens/auth/AuthViewModel.kt:77 | the length the JVM reports: between the number of characters and twice it, zero only for the empty string; one character counts two units iff it lies beyond the Basic Multilingual Plane, so the length equals the character count when all are in that plane and twice it when none is |
| Text.Utf16LengthConcat | app/src/main/java/uk/ac/tees/mad/estore/ui/screens/auth/AuthViewModel.kt:77 | the UTF-16 length of a concatenation is the sum of the parts' lengths |
| Home.Filter | app/src/main/java/uk/ac/tees/mad/estore/ui/screens/home/HomeViewModel.kt:75-81 | a product is in the visible list iff it is in the snapshot, its title or description contains the query ignoring case, and the category is unset or equal |
| Home.FilterCounts | app/src/main/java/uk/ac/tees/mad/estore/ui/screens/home/HomeViewModel.kt:76-81 | each kept product appears exactly as often as in the snapshot and a dropped one not at all: nothing is duplicated or lost |
| Home.FilterKeepsOrder | app/src/main/java/uk/ac/tees/mad/estore/ui/screens/home/HomeViewModel.kt:76-81 | the visible list is a subsequence of the snapshot, in its original relative order |
| Home.FilterProducts | app/src/main/java/uk/ac/tees/mad/estore/ui/screens/home/HomeViewModel.kt:75-83 | filtering replaces only the visible list; snapshot, query, categories, selection, loading flag and error are unchanged |
| Home.OnSearchQueryChange | app/src/main/java/uk/ac/tees/mad/estore/ui/screens/home/HomeViewModel.kt:65-68 | stores the query, filters with the already selected category, changes nothing else, and leaves the list consistent with the filter |
| Home.OnCategorySelected | app/src/main/java/uk/ac/tees/mad/estore/ui/screens/home/HomeViewModel.kt:70-73 | stores the category, filters with the already entered query, changes nothing else, and leaves the list consistent |
| Home.StartLoading | app/src/main/java/uk/ac/tees/mad/estore/ui/screens/home/HomeViewModel.kt:34 | a load raises the loading flag and keeps a previous error and every list |
| Home.FinishLoading | app/src/main/java/uk/ac/tees/mad/estore/ui/screens/home/HomeViewModel.kt:42-60 | both fetches succeeding replaces categories and snapshot, shows the whole snapshot and clears the error; any failure keeps all lists and reports the categories failure first, else the products failure, with "Unknown error occurred" for a missing message; selection and query are untouched |
| Home.LoadInitialData | app/src/main/java/uk/ac/tees/mad/estore/ui/screens/home/HomeViewModel.kt:32-62 | a load or retry always ends not loading, with no error exactly when both fetches succeed |
| Home.FilterUnfiltered | app/src/main/java/uk/ac/tees/mad/estore/ui/screens/home/HomeViewModel.kt:77-79 | an empty query and no category show the snapshot unchanged |
| Home.FilterUnknownCategory | app/src/main/java/uk/ac/tees/mad/estore/ui/screens/home/HomeViewModel.kt:79 | a category no product has yields the empty list |
| Home.FilterIdempotent | app/src/main/java/uk/ac/tees/mad/estore/ui/screens/home/HomeViewModel.kt:76-81 | filtering the filtered list again with the same criteria changes nothing |
| Home.SearchAndCategoryCommute | app/src/main/java/uk/ac/tees/mad/estore/ui/screens/home/HomeViewModel.kt:65-73 | setting a query and a category reach the same state in either order |
| Home.SuccessfulLoadConsistency | app/src/main/java/uk/ac/tees/mad/estore/ui/screens/home/HomeViewModel.kt:45-52 | after a successful load the list is consistent with the filter iff every new product matches it; from an empty query and no category it always is |
| Home.FailedLoadKeepsConsistency | app/src/main/java/uk/ac/tees/mad/estore/ui/screens/home/HomeViewModel.kt:54-60 | a failed load keeps a consistent list consistent |
| Home.SearchScenario | app/src/main/java/uk/ac/tees/mad/estore/ui/screens/home/HomeViewModel.kt:76-81 | "shirt" over a red shirt and a blue mug shows only the shirt |
| Home.CategoryScenario | app/src/main/java/uk/ac/tees/mad/estore/ui/screens/home/HomeViewModel.kt:79 | the "home" category shows only the mug |
| Home.UnknownCategoryScenario | app/src/main/java/uk/ac/tees/mad/estore/ui/screens/home/HomeViewModel.kt:79 | the "toys" category shows nothing |
| Home.RetryIgnoresActiveQuery | app/src/main/java/uk/ac/tees/mad/estore/ui/screens/home/HomeViewModel.kt:45-52 | a successful retry with "shirt" typed shows the mug and leaves the list inconsistent with the query |
| Home.BothFetchesFailScenario | app/src/main/java/uk/ac/tees/mad/estore/ui/screens/home/HomeViewModel.kt:42-60 | when both fetches fail the categories message is shown and only the flags change |
| Auth.EmailError | app/src/main/java/uk/ac/tees/mad/estore/ui/screens/auth/AuthViewModel.kt:72-74 | "Email is required" iff empty, "Invalid email" iff non-empty and rejected by the address pattern, none iff accepted |
| Auth.PasswordError | app/src/main/java/uk/ac/tees/mad/estore/ui/screens/auth/AuthViewModel.kt:76-78 | "Password is required" iff empty, the length message iff shorter than six UTF-16 units, none iff at least six |
| Auth.ValidateSignInForm | app/src/main/java/uk/ac/tees/mad/estore/ui/screens/auth/AuthViewModel.kt:71-85 | writes both messages, changes no other field, passes iff both messages are absent iff the credentials are acceptable |
| Auth.ValidateSignUpForm | app/src/main/java/uk/ac/tees/mad/estore/ui/screens/auth/AuthViewModel.kt:87-98 | runs the sign-in checks in full, sets "Passwords don't match" iff the two passwords differ, passes iff both checks pass |
| Auth.OnEmailChange | app/src/main/java/uk/ac/tees/mad/estore/ui/screens/auth/AuthViewModel.kt:25-27 | replaces only the e-mail; error messages and the auth state stay |
| Auth.OnPasswordChange | app/src/main/java/uk/ac/tees/mad/estore/ui/screens/auth/AuthViewModel.kt:29-31 | replaces only the password |
| Auth.OnConfirmPasswordChange | app/src/main/java/uk/ac/tees/mad/estore/ui/screens/auth/AuthViewModel.kt:33-35 | replaces only the confirmation |
| Auth.ToAuthState | app/src/main/java/uk/ac/tees/mad/estore/ui/screens/auth/AuthViewModel.kt:46-50 | a success becomes `Success` with the same user; a failure becomes `Error` with its message or "Unknown error" |
| Auth.Submit | app/src/main/java/uk/ac/tees/mad/estore/ui/screens/auth/AuthViewModel.kt:38-45 | an invalid form sends nothing and keeps the auth state; a valid one sends the form's e-mail and password and shows `Loading` |
| Auth.Complete | app/src/main/java/uk/ac/tees/mad/estore/ui/screens/auth/AuthViewModel.kt:46-50 | the answer only changes the auth state, and only when a request was sent |
| Auth.SignIn | app/src/main/java/uk/ac/tees/mad/estore/ui/screens/auth/AuthViewModel.kt:37-52 | a request goes out iff the sign-in form is acceptable; otherwise the auth state is untouched; otherwise it becomes the mapped answer |
| Auth.SignUp | app/src/main/java/uk/ac/tees/mad/estore/ui/screens/auth/AuthViewModel.kt:54-69 | a request goes out iff the form is acceptable and the passwords agree; the auth state as for sign-in |
| Auth.SignUpGateImpliesSignInGate | app/src/main/java/uk/ac/tees/mad/estore/ui/screens/auth/AuthViewModel.kt:87-98 | whatever sign-up sends, sign-in would send too |
| Auth.ValidationIgnoresStaleErrors | app/src/main/java/uk/ac/tees/mad/estore/ui/screens/auth/AuthViewModel.kt:71-98 | validation depends only on the three fields, never on earlier messages |
| Auth.PasswordLengthBoundary | app/src/main/java/uk/ac/tees/mad/estore/ui/screens/auth/AuthViewModel.kt:77 | five characters are refused, exactly six pass |
| Auth.SupplementaryPasswordPasses | app/src/main/java/uk/ac/tees/mad/estore/ui/screens/auth/AuthViewModel.kt:77 | a password of three emoji is six UTF-16 units long and passes the length check |
| Checkout.ValidateFields | app/src/main/java/uk/ac/tees/mad/estore/ui/screens/checkout/CheckoutViewModel.kt:104-111 | valid iff the address has a non-whitespace character and a payment method is chosen; nothing else changes |
| Checkout.UpdateAddress | app/src/main/java/uk/ac/tees/mad/estore/ui/screens/checkout/CheckoutViewModel.kt:53-56 | sets only the address and leaves the flag accurate |
| Checkout.UpdatePaymentMethod | app/src/main/java/uk/ac/tees/mad/estore/ui/screens/checkout/CheckoutViewModel.kt:58-61 | sets only the method and leaves the flag accurate |
| Checkout.LoadProduct | app/src/main/java/uk/ac/tees/mad/estore/ui/screens/checkout/CheckoutViewModel.kt:37-51 | a fetched product is stored and nothing else that is modelled changes (the total set at line 44 is not modelled); a failure changes nothing |
| Checkout.StartLocating | app/src/main/java/uk/ac/tees/mad/estore/ui/screens/checkout/CheckoutViewModel.kt:67 | a lookup raises only the location-loading flag |
| Checkout.LocationResult | app/src/main/java/uk/ac/tees/mad/estore/ui/screens/checkout/CheckoutViewModel.kt:78-91 | success sets the address, clears the flag and revalidates, keeping an old location error; failure records the message or "Error getting location", clears the flag, and keeps address and validity |
| Checkout.GetCurrentLocation | app/src/main/java/uk/ac/tees/mad/estore/ui/screens/checkout/CheckoutViewModel.kt:63-102 | without permission nothing changes; with it the lookup's outcome is applied |
| Checkout.LookupIsTwoEvents | app/src/main/java/uk/ac/tees/mad/estore/ui/screens/checkout/CheckoutViewModel.kt:63-102 | a permitted lookup with no edit in between is the start event followed by the outcome event |
| Checkout.InitialFlagAccurate | app/src/main/java/uk/ac/tees/mad/estore/ui/screens/checkout/CheckoutViewModel.kt:126-135 | the initial form is invalid and its flag agrees with its fields |
| Checkout.StepKeepsFlagAccurate | app/src/main/java/uk/ac/tees/mad/estore/ui/screens/checkout/CheckoutViewModel.kt:53-111 | every form event keeps the flag in agreement with the fields |
| Checkout.RunKeepsFlagAccurate | app/src/main/java/uk/ac/tees/mad/estore/ui/screens/checkout/CheckoutViewModel.kt:53-111 | after any sequence of events the flag agrees with the fields |
| Checkout.BlankAddressNeverValid | app/src/main/java/uk/ac/tees/mad/estore/ui/screens/checkout/CheckoutViewModel.kt:107 | a whitespace-only address is never valid, whatever the payment method |
| Checkout.DisplayNamesDistinct | app/src/main/java/uk/ac/tees/mad/estore/ui/screens/checkout/CheckoutViewModel.kt:137-142 | the four payment methods have distinct display names |
| Favorites.IsFavoriteIffRowExists | app/src/main/java/uk/ac/tees/mad/estore/data/FavoriteDao.kt:15-16 | an id is a favourite iff some stored row carries it |
| Favorites.AddToFavorites | app/src/main/java/uk/ac/tees/mad/estore/data/FavoriteDao.kt:18-19 | the row is stored under its id, replacing any old one; every other row stays; the size grows by one only for a new id |
| Favorites.RemoveFromFavorites | app/src/main/java/uk/ac/tees/mad/estore/data/FavoriteDao.kt:21-22 | the id is gone; every other row stays; the size shrinks by one only if the id was present |
| Favorites.InsertNewestFirst | app/src/main/java/uk/ac/tees/mad/estore/data/FavoriteDao.kt:12 | inserting into a newest-first list keeps it newest-first, adds exactly one occurrence of the row (the multiset of rows grows by it), and keeps rows distinct |
| Favorites.GetAllFavorites | app/src/main/java/uk/ac/tees/mad/estore/data/FavoriteDao.kt:12-13 | the listing holds every stored row exactly once, each as stored, newest first |
| Favorites.AddThenRemove | app/src/main/java/uk/ac/tees/mad/estore/data/FavoriteDao.kt:15-22 | after an add the id is a favourite, after removing it it is not, and add-then-remove of a new id restores the table |
| Favorites.AddTwiceSameSize | app/src/main/java/uk/ac/tees/mad/estore/domain/FavoriteProduct.kt:8-9 | a second add with the same id keeps the size and only the last row survives |
| Favorites.RemoveAbsent | app/src/main/java/uk/ac/tees/mad/estore/data/FavoriteDao.kt:21-22 | removing an absent id changes nothing |
| ProductDetails.StartLoading | app/src/main/java/uk/ac/tees/mad/estore/ui/screens/productdetail/ProductDetailsViewModel.kt:39 | a load raises the loading flag and keeps the product and the error |
| ProductDetails.FinishLoading | app/src/main/java/uk/ac/tees/mad/estore/ui/screens/productdetail/ProductDetailsViewModel.kt:41-56 | success shows the product and clears the error; failure keeps the product and shows the message or "Unknown error occurred"; both clear the flag |
| ProductDetails.LoadProduct | app/src/main/java/uk/ac/tees/mad/estore/ui/screens/productdetail/ProductDetailsViewModel.kt:37-59 | a load or retry ends not loading, with no error iff the fetch succeeded, and never drops a shown product |
| ProductDetails.ToFavorite | app/src/main/java/uk/ac/tees/mad/estore/ui/screens/productdetail/ProductDetailsViewModel.kt:67-76 | the stored row copies id, title, price, description, category, image, rating score and count, stamped with the clock |
| ProductDetails.ToggleFavorite | app/src/main/java/uk/ac/tees/mad/estore/ui/screens/productdetail/ProductDetailsViewModel.kt:61-80 | without a product nothing changes; a favourite route id removes the product's row, otherwise its row is added; no other id changes |
| ProductDetails.ToggleFlips | app/src/main/java/uk/ac/tees/mad/estore/ui/screens/productdetail/ProductDetailsViewModel.kt:64-79 | with the route's own product shown, a toggle flips its membership |
| ProductDetails.ToggleTwiceMembership | app/src/main/java/uk/ac/tees/mad/estore/ui/screens/productdetail/ProductDetailsViewModel.kt:64-79 | two toggles restore the membership of every id |
| ProductDetails.ToggleTwiceRestores | app/src/main/java/uk/ac/tees/mad/estore/ui/screens/productdetail/ProductDetailsViewModel.kt:64-79 | for a non-favourite, two toggles restore the table exactly |
| ProductDetails.ToggleTwiceRefreshes | app/src/main/java/uk/ac/tees/mad/estore/ui/screens/productdetail/ProductDetailsViewModel.kt:64-79 | for a favourite, two toggles leave its row re-added with the later timestamp |
| ProductDetails.FailedReloadKeepsToggleTarget | app/src/main/java/uk/ac/tees/mad/estore/ui/screens/productdetail/ProductDetailsViewModel.kt:50-56 | a failed reload does not change what the toggle does |

## Left out

- Coroutines, `async` fan-out, `StateFlow` and cancellation: each operation is one sequential transition taking the fetch results as parameters.
- The repositories, the REST client, Firebase and Room wiring: their answers are `Result` parameters.
- Text.ContainsIgnoreCase: folds ASCII letters only; Kotlin's `ignoreCase` also folds the rest of Unicode.
- Auth.EmailError: the platform e-mail regular expression is a parameter `isEmailAddress` with no interpretation.
- ProductDetails.ToggleFavorite: `isFavorite` is read as the table's current answer; the cached flow value (initially false, refreshed asynchronously) is not modelled.
- `calculateTotal`, `deliveryFee` and `total` in checkout: floating-point arithmetic. Prices and ratings are carried as `real` and only copied.
- `placeOrder`: a one-second delay followed by a callback; no state changes.
- The location collaborator (permission check, device location, geocoding, formatting): its answer is a permission flag and a `Result` address.
- `System.currentTimeMillis()`: the toggle takes the clock reading as a parameter.
- `isSignUp` in `AuthUiState`: carried but never read or written by the view model.
- The Compose screens, navigation, the profile screen and its view model, and the favourites list view model: UI and service plumbing.
