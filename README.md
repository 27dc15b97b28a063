# Clothing store core, modelled and proved in Dafny

This project models the list, record and arithmetic logic under a
clothing store. The store has an Express/Mongo backend, two React Native
clients and a React web storefront. The model covers:

- the client cart store (`CartProvider`) and the two simpler carts of the
  web storefront (the home page's own cart and the cart drawer), plus the
  mobile cart screen;
- the order-summary arithmetic (subtotal, 8% tax, flat 5.99 shipping),
  with money in integer cents and the tax an exact rational;
- the product routes: filtered and paged listing, lookup, creation,
  partial update with `||` fallbacks, deletion, and review submission
  with its count and mean rating;
- the user routes: login, registration with its duplicate-email check,
  profile read and update, the wishlist, and the admin user list;
- the small UI state rules:
  - the product grid's pagination bar;
  - the quick-view and product-detail quantity pickers;
  - the filter sidebar;
  - default selection for addresses and payment methods, with a guarded
    delete for payment methods;
  - order status and colour;
  - the three-step checkout and its order payload;
  - the register, profile, address and login form validators.

There is one module per source file. Six small modules are shared:

- `Seqs`: `filter`, `reduce` and `find` over sequences.
- `LineItems`: the cart row of the web storefront and the mobile cart screen, with removal and quantity update by id.
- `Labels`: the "item"/"items" noun after a count.
- `Pricing`: the summary arithmetic.
- `Http`: response statuses.
- `Js`: JavaScript's `value || current` fallback.

Where the source keeps state in a React state cell or a database
document, the model is a class:

- the field's type is `seq` or `map`;
- each handler is a method that reassigns the field;
- the method's `ensures` ties the new state to a pure function of the old
  one (`cartItems == Merged(old(cartItems), item)`);
- the lemmas state the properties of that function.

The backend handlers return a pair of status and collection (`Change`,
`UserChange`). Each class method's contract equates that pair with the
function that specifies the handler.

## Model

| member | source | states |
|---|---|---|
| CartContext.CartProvider.constructor | frontend/src/context/CartContext.tsx:37-38 | the cart starts empty, which satisfies the no-duplicate-variant invariant |
| CartContext.CartProvider.AddToCart | frontend/src/context/CartContext.tsx:70-89 | the new cart is the merge of the item into the old cart; no two rows share (id, size, colour) before or after |
| CartContext.MergeExisting | frontend/src/context/CartContext.tsx:72-83 | adding a variant already present keeps the length, raises that row's quantity by the item's quantity, keeps its name, price, image and stock, leaves every other row alone, and raises the total by the row's price times the added quantity |
| CartContext.MergeNew | frontend/src/context/CartContext.tsx:84-87 | a new variant is appended at the end; earlier rows are unchanged and the total grows by the new line total |
| CartContext.MergeKeepsUniqueVariants | frontend/src/context/CartContext.tsx:72-88 | `addToCart` preserves "no two rows share (id, size, colour)" |
| CartContext.AddSameVariantTwice | frontend/src/context/CartContext.tsx:70-89 | two adds of the same variant to a cart without it give one row whose quantity is the sum of the two |
| CartContext.CartProvider.RemoveFromCart | frontend/src/context/CartContext.tsx:92-94 | the new cart is the old one without any row of that product id; the invariant is kept |
| CartContext.RemoveProduct | frontend/src/context/CartContext.tsx:92-94 | removal drops every row with the id, whatever its size and colour, keeps every other row, and is the identity when the id is absent |
| CartContext.CartProvider.UpdateCartQuantity | frontend/src/context/CartContext.tsx:97-101 | every row of that id takes the new quantity, with no bound check; the invariant is kept |
| CartContext.UpdateQuantityKeepsKeys | frontend/src/context/CartContext.tsx:97-101 | a quantity update keeps variant keys unique and changes nothing when the id is absent |
| CartContext.CartProvider.ClearCart | frontend/src/context/CartContext.tsx:104-106 | the cart becomes empty |
| CartContext.CartProvider.GetCartTotal | frontend/src/context/CartContext.tsx:109-114 | the total is the sum of price times quantity; an empty cart totals zero |
| CartContext.CartTotalAppend | frontend/src/context/CartContext.tsx:109-114 | the total is additive when rows are appended |
| LineItems.RemoveId | src/components/home.tsx:85-87 | removing by id drops exactly the rows with that id, keeps the others, and keeps ids unique and quantities positive |
| LineItems.SetQuantity | src/components/home.tsx:79-83 | setting a quantity by id changes only those rows, keeps ids unique, and keeps quantities positive when the new quantity is positive |
| Home.AddExistingId | src/components/home.tsx:59-64 | adding an id already in the cart raises that row's quantity by exactly one and keeps the length |
| Home.AddNewId | src/components/home.tsx:47-57 | adding a new id appends one sample row with that id and quantity one; the earlier rows are unchanged |
| Home.AddKeepsUniqueIds | src/components/home.tsx:59-68 | merging on the id alone keeps at most one row per id |
| Home.AddRaisesBadgeByOne | src/components/home.tsx:104 | each add raises the badge count (the sum of quantities) by exactly one |
| Home.HomePage.constructor | src/components/home.tsx:11-17 | the page starts with an empty cart, on page one, with the drawer closed |
| Home.HomePage.HandleAddToCart | src/components/home.tsx:59-71 | the cart becomes the add-by-id of the old cart, the drawer opens, and the page is unchanged |
| Home.HomePage.HandleQuickViewAddToCart | src/components/home.tsx:147-150 | the quick-view add ignores the chosen quantity, size and colour and is exactly a one-unit add by id |
| Home.HomePage.HandleUpdateCartQuantity | src/components/home.tsx:79-83 | the rows with that id take the new quantity; ids stay unique |
| Home.HomePage.HandleRemoveCartItem | src/components/home.tsx:85-87 | the rows with that id go and the rest stay in order; ids stay unique |
| Home.HomePage.HandlePageChange | src/components/home.tsx:94-97 | the current page becomes the chosen page |
| Home.HomePage.CartItemCount | src/components/home.tsx:104 | the badge shows the sum of quantities, zero for an empty cart |
| CartScreen.StepSpec | mobile-clothing-store/screens/CartScreen.tsx:62-73 | a step moves exactly the rows of that id whose quantity stays at one or more, by exactly the increment and with no upper bound; every other row and the order are unchanged; positive quantities stay positive |
| CartScreen.MinusWhenEnabled | mobile-clothing-store/screens/CartScreen.tsx:119-124 | with the minus button enabled (quantity above one), pressing it lowers that row by exactly one |
| CartScreen.InitialSummary | mobile-clothing-store/screens/CartScreen.tsx:25-56 | the seeded cart's summary is subtotal 349.96, shipping 5.99, tax 27.9968, total 383.9468 |
| CartScreen.CartScreenState.constructor | mobile-clothing-store/screens/CartScreen.tsx:25-60 | the screen starts from the three sample rows, all with positive quantities |
| CartScreen.CartScreenState.HandleUpdateQuantity | mobile-clothing-store/screens/CartScreen.tsx:62-73 | the cart becomes the stepped cart; no quantity goes below one |
| CartScreen.CartScreenState.HandleRemoveItem | mobile-clothing-store/screens/CartScreen.tsx:75-77 | the rows with that id go, the rest stay in order; quantities stay positive |
| CartScreen.CartScreenState.Summary | mobile-clothing-store/screens/CartScreen.tsx:79-85 | subtotal is the sum of price times quantity, shipping the constant 5.99 whatever the contents, tax 8% of the subtotal, total their sum |
| CartDrawer.Drawer.constructor | src/components/cart/CartDrawer.tsx:72 | the drawer's local copy starts as the rows it is given |
| CartDrawer.Drawer.HandleUpdateQuantity | src/components/cart/CartDrawer.tsx:74-83 | a quantity below one changes nothing and forwards nothing; otherwise the rows of that id take the new quantity and the same (id, quantity) is forwarded; positive quantities stay positive |
| CartDrawer.Drawer.HandleRemoveItem | src/components/cart/CartDrawer.tsx:85-89 | the id is filtered out locally and the same id is forwarded |
| CartDrawer.Drawer.Summary | src/components/cart/CartDrawer.tsx:91-97 | totals follow subtotal + 5.99 + 8% of the subtotal |
| CartDrawer.Drawer.HeaderNoun | src/components/cart/CartDrawer.tsx:112 | the label reads "item" exactly when there is one row and "items" otherwise |
| Labels.CountNoun | src/components/cart/CartDrawer.tsx:112 | the noun is "item" exactly for a count of one and "items" otherwise |
| Pricing.Summarize | mobile-clothing-store/src/screens/CheckoutScreen.tsx:48-51 | shipping is 5.99, tax is 8% of the subtotal, and the total is 1.08 times the subtotal plus 5.99 |
| Pricing.TotalMonotone | mobile-clothing-store/screens/CartScreen.tsx:79-85 | a larger subtotal never gives a smaller total |
| Pricing.WorkedExample | mobile-clothing-store/screens/CartScreen.tsx:79-85 | 29.99 x 2 plus 59.99 gives subtotal 119.97, tax 9.5976 and total 135.5576 |
| ProductGrid.TotalPages | src/components/products/ProductGrid.tsx:103 | the page count is the ceiling of the product count over eight |
| ProductGrid.ButtonShown | src/components/products/ProductGrid.tsx:221-235 | a page gets a button exactly when it is in [1, totalPages] and is the first page, the last page or within one of the current page |
| ProductGrid.EllipsisShown | src/components/products/ProductGrid.tsx:236-241 | an ellipsis appears exactly at currentPage - 2 when currentPage > 3 and at currentPage + 2 when currentPage < totalPages - 2, never on a page with a button, and never on the first or last page |
| ProductGrid.RenderedInOrder | src/components/products/ProductGrid.tsx:218-243 | every rendered page number is in [1, totalPages] and the numbers strictly increase, so none appears twice |
| ProductGrid.NeighboursReachable | src/components/products/ProductGrid.tsx:212-248 | on an in-range page, an enabled previous or next button leads to a neighbouring page that has its own button |
| ProductGrid.EmptyCatalogNextEnabled | src/components/products/ProductGrid.tsx:98-103 | with no products there are no pages, yet next is enabled on page one |
| QuickViewModal.Clamp | src/components/products/QuickViewModal.tsx:72-74 | the result is always in [1, 10]; an in-range value is kept, a lower one becomes 1 and a higher one 10 |
| QuickViewModal.ButtonsStepByOne | src/components/products/QuickViewModal.tsx:193-203 | an enabled minus or plus button moves an in-range quantity by exactly one |
| QuickViewModal.QuickView.constructor | src/components/products/QuickViewModal.tsx:62-65 | quantity starts at one, with no size or colour chosen and the first image shown |
| QuickViewModal.QuickView.HandleQuantityChange | src/components/products/QuickViewModal.tsx:72-74 | the stored quantity is the clamped value, so it stays in [1, 10] |
| QuickViewModal.QuickView.SelectSize | src/components/products/QuickViewModal.tsx:153 | the chosen size is stored |
| QuickViewModal.QuickView.SelectColor | src/components/products/QuickViewModal.tsx:176 | the chosen colour is stored |
| QuickViewModal.QuickView.HandleAddToCart | src/components/products/QuickViewModal.tsx:67-70 | exactly (product id, quantity, size, colour) is forwarded, with an in-range quantity, and the dialog is asked to close |
| ProductDetail.Changed | frontend/screens/ProductDetailScreen.tsx:61-66 | a step applies exactly when quantity + increment is in [1, 10]; otherwise the quantity is unchanged; an in-range quantity stays in range |
| ProductDetail.ChangesStayInRange | frontend/screens/ProductDetailScreen.tsx:54-66 | from an in-range start, the quantity stays in [1, 10] after any sequence of steps |
| ProductDetail.ButtonsMatchGuard | frontend/screens/ProductDetailScreen.tsx:157-169 | each button is disabled exactly when its step would be refused |
| ProductDetail.ProductDetailState.constructor | frontend/screens/ProductDetailScreen.tsx:51-54 | quantity starts at one |
| ProductDetail.ProductDetailState.HandleQuantityChange | frontend/screens/ProductDetailScreen.tsx:61-66 | the quantity becomes the guarded step of the old one and stays in [1, 10] |
| FilterSidebar.ToggleFlips | src/components/layout/FilterSidebar.tsx:66-80 | a present value is removed and an absent one added; no other value's membership changes |
| FilterSidebar.ToggleKeepsDistinct | src/components/layout/FilterSidebar.tsx:66-80 | toggling keeps a list free of repetitions |
| FilterSidebar.ToggleTwice | src/components/layout/FilterSidebar.tsx:66-80 | two toggles restore an absent value's list exactly; a present value returns at the end, so a list without repetitions keeps the same elements |
| FilterSidebar.Sidebar.constructor | src/components/layout/FilterSidebar.tsx:35-40 | the filters start empty with the range [0, 200] |
| FilterSidebar.Sidebar.HandleCategoryChange | src/components/layout/FilterSidebar.tsx:66-80 | only the category list changes, by a toggle; sizes, colours and price stay |
| FilterSidebar.Sidebar.HandleSizeChange | src/components/layout/FilterSidebar.tsx:82-96 | only the size list changes, by a toggle |
| FilterSidebar.Sidebar.HandleColorChange | src/components/layout/FilterSidebar.tsx:98-112 | only the colour list changes, by a toggle |
| FilterSidebar.Sidebar.HandlePriceChange | src/components/layout/FilterSidebar.tsx:114-119 | the range becomes the first two slider values; nothing else changes |
| FilterSidebar.Sidebar.HandleApplyFilters | src/components/layout/FilterSidebar.tsx:121-123 | the current filter record goes to the parent unchanged |
| FilterSidebar.Sidebar.HandleResetFilters | src/components/layout/FilterSidebar.tsx:125-133 | the filters return exactly to the initial record, and the parent's `onResetFilters` is always called |
| Addresses.SetDefaultMarks | frontend/src/screens/AddressesScreen.tsx:59-66 | set-default marks exactly the addresses with that id and keeps length, order and every other field |
| Addresses.SetDefaultSingle | frontend/src/screens/AddressesScreen.tsx:61-64 | with unique ids, exactly one default remains when the id is present and none when it is absent |
| Addresses.DeleteDrops | frontend/src/screens/AddressesScreen.tsx:68-70 | delete drops exactly the addresses with that id, keeps the rest, and keeps ids unique |
| Addresses.DeleteDefaultLeavesNone | frontend/src/screens/AddressesScreen.tsx:68-70 | deleting the only default is allowed and leaves no default |
| Addresses.SampleDeleteHome | frontend/src/screens/AddressesScreen.tsx:32-53 | the samples have one default, and deleting "Home" leaves none |
| Addresses.AddressesScreen.constructor | frontend/src/screens/AddressesScreen.tsx:57 | the screen starts from the two sample addresses |
| Addresses.AddressesScreen.HandleSetDefault | frontend/src/screens/AddressesScreen.tsx:59-66 | the list becomes the set-default of the old list |
| Addresses.AddressesScreen.HandleDeleteAddress | frontend/src/screens/AddressesScreen.tsx:68-70 | the list becomes the old one without that id; ids stay unique |
| PaymentMethods.SetDefaultMarks | mobile-clothing-store/src/screens/PaymentMethodsScreen.tsx:63-70 | set-default marks exactly the methods with that id, changes no other field, and leaves exactly one default when the id is present |
| PaymentMethods.FindPresent | mobile-clothing-store/src/screens/PaymentMethodsScreen.tsx:74-76 | with unique ids, the lookup finds the very method with that id |
| PaymentMethods.DeleteDefaultRefused | mobile-clothing-store/src/screens/PaymentMethodsScreen.tsx:74-85 | deleting the default is refused and the list is unchanged |
| PaymentMethods.DeleteNonDefault | mobile-clothing-store/src/screens/PaymentMethodsScreen.tsx:87 | deleting a non-default method removes exactly it and keeps the rest in order |
| PaymentMethods.DeleteUnknown | mobile-clothing-store/src/screens/PaymentMethodsScreen.tsx:74-87 | deleting an unknown id changes nothing |
| PaymentMethods.DeleteKeepsDefaults | mobile-clothing-store/src/screens/PaymentMethodsScreen.tsx:72-88 | delete never changes how many methods are default |
| PaymentMethods.PaymentMethodsScreen.constructor | mobile-clothing-store/src/screens/PaymentMethodsScreen.tsx:31-60 | the screen starts from the three sample methods |
| PaymentMethods.PaymentMethodsScreen.HandleSetDefault | mobile-clothing-store/src/screens/PaymentMethodsScreen.tsx:63-70 | the list becomes the set-default of the old list |
| PaymentMethods.PaymentMethodsScreen.HandleDeletePaymentMethod | mobile-clothing-store/src/screens/PaymentMethodsScreen.tsx:72-88 | the alert fires exactly when the method found is the default; the list follows the guarded delete; the number of defaults is unchanged |
| Orders.OrderStatus | mobile-clothing-store/src/screens/OrdersScreen.tsx:63-67 | "Delivered" iff delivered, whatever the payment; "Shipped" iff paid and not delivered; "Processing" iff neither |
| Orders.StatusColor | mobile-clothing-store/src/screens/OrdersScreen.tsx:69-78 | the two known statuses get their colours and any other status the default colour |
| Orders.OrderColour | mobile-clothing-store/src/screens/OrdersScreen.tsx:63-78 | the colour alone tells the order's state, each direction |
| Orders.ItemNoun | mobile-clothing-store/src/screens/OrdersScreen.tsx:101 | the noun is singular iff the summed quantity is one |
| Orders.CountAtLeastLines | mobile-clothing-store/src/screens/OrdersScreen.tsx:83 | with positive quantities, the item count is at least the number of lines |
| Orders.SingularNoun | mobile-clothing-store/src/screens/OrdersScreen.tsx:83-101 | with positive quantities, "item" is shown exactly for one line of one unit |
| Orders.ShortId | mobile-clothing-store/src/screens/OrdersScreen.tsx:94 | the shown id is the first eight characters, or the whole id when it is shorter |
| Checkout.AfterShippingSubmit | mobile-clothing-store/src/screens/CheckoutScreen.tsx:53-62 | the step becomes 2 exactly when all four shipping fields are filled in; otherwise it is unchanged |
| Checkout.AfterPaymentSubmit | mobile-clothing-store/src/screens/CheckoutScreen.tsx:64-72 | the step becomes 3 exactly when a payment method is chosen; otherwise it is unchanged |
| Checkout.RunSteps | mobile-clothing-store/src/screens/CheckoutScreen.tsx:33-72 | under any events the step stays in 1..3, changes only through a submit, and reaches 3 only through a payment submit |
| Checkout.HappyPath | mobile-clothing-store/src/screens/CheckoutScreen.tsx:33-72 | an empty form keeps the flow on step one; a complete form, then the default payment, reaches step three |
| Checkout.OrderMatchesCart | mobile-clothing-store/src/screens/CheckoutScreen.tsx:78-96 | the order lines follow the cart row by row (qty the quantity, product the id, other fields copied); the payload carries the cart total, 8% tax, 5.99 shipping and their sum, and the chosen address and method |
| Checkout.OrderItemsTotal | mobile-clothing-store/src/screens/CheckoutScreen.tsx:78-88 | the order lines' price times qty sums to the items price |
| Checkout.CheckoutScreen.constructor | mobile-clothing-store/src/screens/CheckoutScreen.tsx:33-45 | checkout starts on step one, not loading, with an empty address and PayPal chosen |
| Checkout.CheckoutScreen.EditShipping | mobile-clothing-store/src/screens/CheckoutScreen.tsx:119-129 | the form holds the typed address |
| Checkout.CheckoutScreen.ChoosePayment | mobile-clothing-store/src/screens/CheckoutScreen.tsx:45 | the chosen method is stored |
| Checkout.CheckoutScreen.HandleShippingSubmit | mobile-clothing-store/src/screens/CheckoutScreen.tsx:53-62 | the step follows the shipping guard |
| Checkout.CheckoutScreen.HandlePaymentSubmit | mobile-clothing-store/src/screens/CheckoutScreen.tsx:64-72 | the step follows the payment guard |
| Checkout.CheckoutScreen.HandlePlaceOrder | mobile-clothing-store/src/screens/CheckoutScreen.tsx:74-108 | the payload is built from the cart as it stands; the cart is cleared only when the order is created; loading ends false either way |
| Register.HandleRegister | mobile-clothing-store/src/screens/RegisterScreen.tsx:36-53 | rejected iff a field is empty; otherwise rejected iff the passwords differ; `register` is called, with name, email and password, iff every field is filled in and the passwords match |
| Register.EmptyCheckFirst | mobile-clothing-store/src/screens/RegisterScreen.tsx:37-45 | an empty confirmation is reported as a missing field, not as a mismatch |
| EditProfile.HandleUpdateProfile | mobile-clothing-store/src/screens/EditProfileScreen.tsx:43-67 | rejected iff name or email is empty, or a non-empty password differs from its confirmation; the payload carries name and email, and the password iff it is non-empty |
| EditProfile.EmptyPasswordSkipsCheck | mobile-clothing-store/src/screens/EditProfileScreen.tsx:49 | an empty password skips the match check and sends no password |
| EditProfile.PayloadThroughRoute | mobile-clothing-store/src/screens/EditProfileScreen.tsx:55-61 | applied by the profile route, an accepted payload sets name and email and changes the stored password exactly when one was typed |
| AddAddress.HandleSaveAddress | mobile-clothing-store/src/screens/AddAddressScreen.tsx:36-47 | saving is accepted iff all six text fields are non-empty |
| AddAddress.SaveIgnoresDefault | mobile-clothing-store/src/screens/AddAddressScreen.tsx:28-41 | the default flag plays no part in validation, and the initial empty form is rejected |
| EditAddress.Loaded | mobile-clothing-store/src/screens/EditAddressScreen.tsx:63-75 | the first address with the id fills the form; with none the form stays as it was |
| EditAddress.LoadThenUpdate | mobile-clothing-store/src/screens/EditAddressScreen.tsx:26-88 | an unknown id leaves the form empty, so the update is rejected; each sample id loads a form that is accepted |
| EditAddress.Switched | mobile-clothing-store/src/screens/EditAddressScreen.tsx:168 | the switch is inert while on and otherwise takes the new value |
| EditAddress.DefaultLocked | mobile-clothing-store/src/screens/EditAddressScreen.tsx:168 | once on, no sequence of presses turns the default off, and the text fields never change |
| EditAddress.EditAddressScreen.constructor | mobile-clothing-store/src/screens/EditAddressScreen.tsx:54-75 | the form is the empty form after the load effect for the route's id |
| EditAddress.EditAddressScreen.SetDefaultSwitch | mobile-clothing-store/src/screens/EditAddressScreen.tsx:168 | the form follows the locked switch |
| EditAddress.EditAddressScreen.HandleUpdateAddress | mobile-clothing-store/src/screens/EditAddressScreen.tsx:77-88 | the update is accepted iff all six text fields are non-empty |
| Login.HandleLogin | frontend/src/screens/LoginScreen.tsx:34-46 | rejected iff email or password is empty; `login` is called with both iff both are non-empty; a failing `login` is caught, so the handler has no failure outcome |
| Http.Code | backend/src/routes/products.js:46 | each status has its code, and only 200 and 201 are successes |
| Js.TextOr | backend/src/routes/products.js:111-116 | a missing or empty string keeps the current value; any other string replaces it |
| Js.NumberOr | backend/src/routes/products.js:112-117 | a missing number or zero keeps the current value; any other number replaces it |
| Js.ListOr | backend/src/routes/products.js:118-119 | a missing array keeps the current value; any array, even an empty one, replaces it |
| ProductsRoute.IndexOfPresent | backend/src/routes/products.js:43 | with unique ids, the lookup finds a present product at its own index |
| ProductsRoute.RequestedPage | backend/src/routes/products.js:12 | a missing, non-numeric or zero page is page 1; any other number is passed through, negatives included |
| ProductsRoute.ListingPage | backend/src/routes/products.js:11-30 | a listing holds at most ten products, exactly the matches at positions [10(page-1), 10 page) in store order; the page count is the ceiling of the match count over ten |
| ProductsRoute.ListingFailsOnlyBelowOne | backend/src/routes/products.js:12-34 | the listing fails exactly for a negative page; a missing page is page one |
| ProductsRoute.EveryMatchListed | backend/src/routes/products.js:14-28 | every match appears on its page at its offset, and every listed product satisfies both the keyword and the category filter |
| ProductsRoute.ElevenProducts | backend/src/routes/products.js:11-30 | eleven products make two pages: ten on the first, one on the second |
| ProductsRoute.KeywordCaseIrrelevant | backend/src/routes/products.js:14-21 | a keyword matches exactly when its lower-case form does |
| ProductsRoute.LiteralOccurrenceMatches | backend/src/routes/products.js:14-21 | a keyword that occurs literally in the name matches it |
| ProductsRoute.GetProduct | backend/src/routes/products.js:39-51 | 200 with the product with that id, or 404 with nothing when no product has that (well-formed) id |
| ProductsRoute.UpdateFallbacks | backend/src/routes/products.js:111-119 | a falsy field keeps its old value (stock cannot be set to zero, a name cannot be cleared), an empty array does replace, id, owner and reviews never change, an empty request is the identity, and the update is idempotent |
| ProductsRoute.ReviewAggregates | backend/src/routes/products.js:168-181 | a review grows the reviews by exactly it, at the end; afterwards numReviews is the review count and rating times count is the sum of ratings; nothing else changes |
| ProductsRoute.IncrementalMean | backend/src/routes/products.js:177-181 | from consistent aggregates, the new rating is the old mean updated with the new rating |
| ProductsRoute.UnknownIdNotFound | backend/src/routes/products.js:43-46 | on an unknown id, get, update, delete and review all answer 404 and change nothing |
| ProductsRoute.SecondReviewRejected | backend/src/routes/products.js:159-166 | a first review is accepted with 201; a second by the same user is refused with 400 and the collection is unchanged |
| ProductsRoute.MutationsKeepIds | backend/src/routes/products.js:94-191 | update, delete and review keep ids unique; a successful delete removes exactly one product |
| ProductsRoute.Catalog.constructor | backend/src/routes/products.js:3 | the catalog holds the given products, whose ids are unique |
| ProductsRoute.Catalog.List | backend/src/routes/products.js:9-34 | the body is the listing; 200 when it is listed, 500 when it fails |
| ProductsRoute.Catalog.Get | backend/src/routes/products.js:39-51 | the answer is the lookup, and 404 exactly when no product has that id |
| ProductsRoute.Catalog.Create | backend/src/routes/products.js:56-89 | 201 with a new product appended, owned by the requester, with no reviews, numReviews 0 and consistent aggregates |
| ProductsRoute.Catalog.Update | backend/src/routes/products.js:94-129 | status and collection are those of the update with fallbacks; 404 on an unknown id; ids stay unique |
| ProductsRoute.Catalog.Delete | backend/src/routes/products.js:134-147 | status and collection are those of the delete; 404 on an unknown id; ids stay unique |
| ProductsRoute.Catalog.AddReview | backend/src/routes/products.js:152-191 | status and collection are those of the review submission: 404, 400 for a repeat reviewer, or 201 with recomputed aggregates |
| UsersRoute.FindByEmail | backend/src/routes/users.js:14 | with unique emails, the lookup finds the user with that email exactly when one exists |
| UsersRoute.LoginAnswer | backend/src/routes/users.js:10-30 | login succeeds iff a user with that email exists and the password check passes, and then answers that user |
| UsersRoute.UnknownEmailRefused | backend/src/routes/users.js:16-25 | an unregistered email is refused whatever the password |
| UsersRoute.RegisterChecksEmail | backend/src/routes/users.js:35-66 | a taken email is refused with 400 and creates nobody; a free one creates exactly one non-admin user with an empty wishlist, after which the same email is refused |
| UsersRoute.RegisterKeepsInvariant | backend/src/routes/users.js:46-50 | registration keeps records under their ids, emails unique and wishlists without repetitions |
| UsersRoute.ProfileFallbacks | backend/src/routes/users.js:99-103 | an omitted or empty name or email keeps the old one; the password changes only to a supplied non-empty one; id, admin flag and wishlist never change |
| UsersRoute.ProfileKeepsInvariant | backend/src/routes/users.js:94-120 | a profile update keeps records under their ids, emails unique and wishlists alone |
| UsersRoute.WishlistAdd | backend/src/routes/users.js:132-139 | a product already wished for is refused with 400 and nothing changes; a new one is appended and then occurs exactly once, with no repetitions |
| UsersRoute.WishlistRemove | backend/src/routes/users.js:157-159 | removal drops every occurrence, keeps every other entry, is the identity on an absent product, and keeps no repetitions |
| UsersRoute.AddThenRemove | backend/src/routes/users.js:137-157 | removing a product just added restores the wishlist |
| UsersRoute.UnknownUserNotFound | backend/src/routes/users.js:83-84 | for an unknown user, the profile update and both wishlist handlers answer 404 and change nothing |
| UsersRoute.UserStore.constructor | backend/src/routes/users.js:3 | the user collection starts empty, which satisfies the invariant |
| UsersRoute.UserStore.Login | backend/src/routes/users.js:10-30 | the answer is the login answer; 200 when a session is returned, 401 otherwise |
| UsersRoute.UserStore.Register | backend/src/routes/users.js:35-66 | status and collection are those of registration; a created user's session is returned |
| UsersRoute.UserStore.GetProfile | backend/src/routes/users.js:71-89 | 200 with the user's id, name, email, admin flag and wishlist, each equal to the stored one, and no password; 404 for an unknown id |
| UsersRoute.ProfileWithholdsPassword | backend/src/routes/users.js:76-82 | two records give the same profile answer exactly when they differ at most in their passwords |
| UsersRoute.UserStore.UpdateProfile | backend/src/routes/users.js:94-120 | status and collection are those of the profile update; the invariant is kept |
| UsersRoute.UserStore.AddToWishlist | backend/src/routes/users.js:125-146 | status and collection are those of the wishlist add; wishlists stay without repetitions |
| UsersRoute.UserStore.RemoveFromWishlist | backend/src/routes/users.js:151-166 | status and collection are those of the wishlist removal |
| UsersRoute.UserStore.AllUsers | backend/src/routes/users.js:171-178 | the answer lists every stored user exactly once and nothing else, as many entries as users |

## Left out

- Local persistence. The AsyncStorage load and save of the cart and of the session are I/O and are not modelled.
- HTTP and database access. The collections are in-memory: a sequence of products and a map of users. The fresh id the store assigns is a parameter, and the middleware's authentication and admin checks are not modelled.
- Password hashing and tokens. `matchPassword` is a function parameter, and `generateToken` is not modelled.
- Schema defaults and validation. The User and Product models are not part of this model, so three things are assumptions:
  - a new user is not an admin and has an empty wishlist;
  - a new product starts with no reviews and a zero rating;
  - the email index is unique.
- UsersRoute.AfterProfileUpdate: updating to an email another user holds answers 500 and changes nothing, on the assumed unique email index.
- ProductsRoute.ListProducts: a negative page answers 500 because the store rejects a negative skip. A fractional page number is not modelled: pages are integers.
- The keyword filter is a `$regex` with the `i` flag. It is modelled as a literal substring match with ASCII case folding; regex metacharacters and Unicode case folding are not modelled.
- Floating point. Money is integer cents and the tax an exact rational. `toFixed(2)` display rounding is not modelled.
- ProductsRoute.GetProduct: model ids stand for well-formed ObjectIds. In the source, a malformed id makes `findById` throw a cast error, and the get, update, delete and review handlers then answer 500, not 404; ProductsRoute.UnknownIdNotFound covers only well-formed ids.
- UsersRoute.UserStore.AllUsers: `User.find({})` answers in the store's natural order, which the model's map does not keep; the model lists each user once in an unspecified order.
- Review ratings are exact reals. `Number(rating)` can also give NaN or an infinity, which are not modelled.
- Product documents are mutated in place by the update and review handlers. The model replaces the record in the sequence, which has the same observable effect.
- Mongoose validation failures on create and save (missing required fields) are not modelled; those paths answer 500 in the source.
- The mobile checkout's own cart store is not among the files. Checkout is modelled against the client cart store of `frontend/src/context/CartContext.tsx`, whose rows carry the same fields.
- The orders route and the pay/deliver lifecycle are not part of this model; only the order display rules are.
- The wishlist screen, rendering, styling, navigation, the product grid's column setter, and date formatting are not modelled.
- The seed data is a fixture. Its ratings are not derived from reviews, and the first review replaces a seeded rating with the true mean.
- Callbacks to parent components and alerts are modelled as the values the handlers return.
- FilterSidebar.ToggleTwice: toggling a selected value twice moves it to the end of its list, so the list is restored only as a multiset, not exactly.
- ProductGrid.EmptyCatalogNextEnabled: with no products the next button stays enabled on page one, because its guard compares the page with a page count of zero. This is recorded as an observation of the code as written.
