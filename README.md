# E-commerce cart, orders and admin state: a Dafny model

This project models an e-commerce shop (a Node/Express server over MongoDB,
and a React/Redux client). Its centre is the server's cart manager:

- A cart is found by its owner: a signed-in user's id, or else a guest
  identifier.
- Inside a cart, a line is identified by the key (productId, size, color).
- Lines are added, re-quantified and removed.
- A guest cart can be merged into a user cart.
- Every change stores `totalPrice = Σ price × quantity`.

Around the cart manager the model covers:

- the order routes: status updates with the `"Delivered"` rule, deletion,
  listing a user's own orders, and the ownership check on a single order;
- the admin user table;
- the client's Redux reducers for admin orders, users and products, and for
  authentication with its guest-identifier rotation;
- the small client helpers that read the cart: subtotal, item count and
  badge, the quantity stepper, the login redirect and merge decision, the
  cart-fetch identity, the product page's add-to-cart panel, and the product
  editor's comma-separated lists and images.

Modelling conventions:

- Prices and quantities are integers (minor currency units).
- A JavaScript value that may be `undefined`, `null` or `""` is an
  `Option<string>`. It is truthy when present and not empty
  (`Common.Truthy`), and `a || b` is `Common.OrElse`.
- A record's missing `_id` is the empty string.
- Time (`Date.now()`, `new Date().getTime()`) is a parameter `now`. The guest
  identifier `"guest_" + now` is `Common.GuestIdAt(now)`, built on a decimal
  rendering that is proved to parse back.
- A MongoDB collection is a sequence in storage order, held in a class field.
  `findOne`/`findById` return the first match.
- An Express handler is a method on that class. It returns the status and
  body and changes the collection as the handler's `save`/`create`/
  `deleteOne` calls would.
- A Redux slice is a class whose fields are the slice state, with one method
  per reducer case. A React component's state hooks are class fields too.
  What a component computes from its props is a function.

Modules, following the source layout:

- `CartModel`: the cart and line-item schemas (`backend/models/Cart.js`).
- `CartLines`: the line operations and the total
  (`backend/routes/cartRoutes.js`).
- `CartRoutes`: the cart store and its handlers
  (`backend/routes/cartRoutes.js`).
- `OrderRoutes`: `backend/routes/orderRoutes.js`.
- `AdminOrderRoutes`: `backend/routes/adminOrderRoutes.js`.
- `AdminUsers`: `server/routes/adminRoutes.js`.
- `IdLists`: the find, replace and filter by id that the client slices
  share.
- `Seqs`: removal at a position (`splice(i, 1)`), and small facts about
  how a sequence splits, used by the proofs.
- `AdminOrderSlice`, `AdminSlice`, `AdminProductSlice` and `AuthSlice`: the
  slices in `client/src/redux/slices/`.
- `ClientCart`: `CartDrawer.jsx`, `Navbar.jsx` and `CartContents.jsx`.
- `LoginPage`: `Login.jsx`.
- `LoginFlow`: sign-in from `Login.jsx` through `authSlice.js`.
- `UserLayout`: `UserLayout.jsx`.
- `ProductDetails`: `ProductDetails.jsx`.
- `EditProduct`: `EditProductPage.jsx`.

Cart invariants (`CartRoutes.CartStore.Valid`), kept by every cart handler:

- every stored cart has exactly one of `user` and `guestId`;
- its `totalPrice` is the total of its lines;
- no two of its lines share a key.

Admin-order state invariant (`AdminOrderSlice.AdminOrderState.Consistent`):
`totalOrders` and `totalSales` agree with the order list. Fetching an array,
updating and deleting each keep it.

Where the code and the project's own documentation differ, the model
follows the code:

- `deliveredAt` is stamped again on every `"Delivered"` update, not only the
  first (backend/routes/adminOrderRoutes.js:39-41).
- The admin user update answers with the saved record, password field
  included (server/routes/adminRoutes.js:82). Only the list and the create
  response leave the password out.

Facts the model exposes about the code:

- The cart drawer renders `CartContents` without a `guestId`
  (frontend/src/components/Layout/CartDrawer.jsx:93). So a guest's quantity
  step or removal request carries neither a user id nor a guest identifier
  (`ClientCart.StepRequest` and `ClientCart.RemoveRequestFor` take both as
  parameters).
- For such a request the server's lookup finds no cart
  (`CartRoutes.OwnerOf` is `None`) and answers 404.
- The cart thunk that sits between the two is not part of this model.

## Model

| member | source | states |
|---|---|---|
| Common.OrElse | server/routes/adminRoutes.js:38 | `s \|\| fallback`: the value when it is truthy, the fallback otherwise |
| Common.GuestIdAt | backend/routes/cartRoutes.js:75 | the guest identifier minted at a time starts with `guest_` and has digits after it |
| Common.NatToStringRoundTrip | backend/routes/cartRoutes.js:75 | the decimal rendering of a time is all digits and parses back to that time |
| Common.NatToStringInjective | client/src/redux/slices/authSlice.js:8 | different times render differently |
| Common.GuestIdAtInjective | client/src/redux/slices/authSlice.js:86 | guest identifiers minted at different times differ, and each one is truthy |
| CartModel.CastLineItem | backend/models/Cart.js:4-31 | a line is accepted exactly when productId and price are present and name and image are present and non-empty; it keeps every given field, size and color may be missing, and quantity defaults to 1 |
| CartModel.CastLineItems | backend/models/Cart.js:44 | a list of lines is accepted exactly when every line is; it keeps the order and the length |
| CartModel.CastCart | backend/models/Cart.js:33-52 | a cart is accepted exactly when its lines are; neither owner field is required; a missing list is empty and a missing total is 0 |
| CartLines.FindLine | backend/routes/cartRoutes.js:46-51 | the index of the first line with the key, or -1 exactly when no line has it |
| Seqs.RemoveAt | backend/routes/cartRoutes.js:157 | `splice(i, 1)`: one element fewer; the elements before `i` are kept, and the ones after it move down by one (also the deletion of a cart document, backend/routes/cartRoutes.js:229) |
| CartLines.AddLine | backend/routes/cartRoutes.js:53-67 | when the key is present, only that line's quantity grows by the requested amount and the length is unchanged; otherwise the new line is appended |
| CartLines.UpdateLine | backend/routes/cartRoutes.js:111-131 | refused exactly when no line has the key; a positive quantity is set on that line alone; zero or less removes that line |
| CartLines.RemoveLine | backend/routes/cartRoutes.js:149-164 | refused exactly when no line has the key; otherwise the first matching line is spliced out |
| CartLines.TotalPriceAppend | backend/routes/cartRoutes.js:19-24 | the total of two lists laid end to end is the sum of their totals |
| CartLines.TotalPrice | backend/routes/cartRoutes.js:19-24 | `calculateTotalPrice`: with no negative price or quantity the total is not negative |
| CartLines.TotalPriceReplace | backend/routes/cartRoutes.js:121-126 | replacing a line changes the total by the difference of the two lines' amounts |
| CartLines.TotalPriceRemoveAt | backend/routes/cartRoutes.js:157-159 | removing a line takes its price × quantity off the total |
| CartLines.AddLineTotal | backend/routes/cartRoutes.js:53-70 | adding moves the total by the requested quantity times the price of the line it lands on |
| CartLines.QtyOfUnique | backend/routes/cartRoutes.js:46-51 | with unique keys, the quantity held under a key is the quantity of the line found for it, or 0 |
| CartLines.AddLineQty | backend/routes/cartRoutes.js:53-67 | adding raises the quantity under the line's key by the requested amount and leaves every other key's quantity alone |
| CartLines.AddLineUnique | backend/routes/cartRoutes.js:53-67 | adding never creates a duplicate key |
| CartLines.RemoveAtUnique | backend/routes/cartRoutes.js:123 | removing a line keeps the keys unique |
| CartLines.UpdateLineEffect | backend/routes/cartRoutes.js:118-126 | an update keeps the keys unique and sets the key's quantity (a non-positive one removes the key); other keys keep their quantity |
| CartLines.RemoveLineEffect | backend/routes/cartRoutes.js:156-159 | a removal keeps the keys unique and drops the key; other keys keep their quantity |
| CartLines.MergeAllUnique | backend/routes/cartRoutes.js:207-222 | merging guest lines into a user cart with unique keys keeps the keys unique |
| CartLines.MergeAll | backend/routes/cartRoutes.js:207-222 | the merged list keeps at least the user's lines and gains at most one line per guest line |
| CartLines.MergeAllStep | backend/routes/cartRoutes.js:207-222 | each further guest line is folded in by one `AddLine` on the list merged so far |
| CartLines.MergeAllQty | backend/routes/cartRoutes.js:207-222 | after the merge, each key holds the user's quantity plus the guest's |
| CartLines.MergeAllKeepsUserLines | backend/routes/cartRoutes.js:207-222 | the merge only raises the quantities of the user's lines, keeping their order, and appends at most the guest lines |
| CartLines.MergeAllTotal | backend/routes/cartRoutes.js:207-224 | when each key has one price, the merged total is the user total plus the guest total |
| CartRoutes.FindOne | backend/routes/cartRoutes.js:11-13 | `Cart.findOne`: the first cart of that owner, or none exactly when no cart has it |
| CartRoutes.OwnerOf | backend/routes/cartRoutes.js:9-16 | a truthy user id wins; otherwise a truthy guest identifier; otherwise no lookup |
| CartRoutes.GetCart | backend/routes/cartRoutes.js:9-16 | the first cart with the user id when one is given, else the first with the guest identifier, else none; none exactly when no cart matches |
| CartRoutes.WithLines | backend/routes/cartRoutes.js:70 | new lines with the total recomputed from them; the owner is unchanged |
| CartRoutes.ImageUrl | backend/routes/cartRoutes.js:41 | the product's first image url, or `default-image-url` when it has none |
| CartRoutes.NewLine | backend/routes/cartRoutes.js:58-66 | the new line has the requested key and quantity and the product's name, price and image |
| CartRoutes.NewCart | backend/routes/cartRoutes.js:75-93 | a one-line cart owned by the user when a user id is given; otherwise by the given guest identifier, or by `guest_` + now; the stored total equals the computed one |
| CartRoutes.NewCartPassesSchema | backend/routes/cartRoutes.js:78-93 | the document handed to `Cart.create` passes the cart schema as that cart, when the line's name and image are not empty |
| CartRoutes.MergeGuestLines | backend/routes/cartRoutes.js:207-222 | the `forEach` loop computes the merge of the guest lines into the user lines, and keeps unique keys unique |
| CartRoutes.CartStore.Fetch | backend/routes/cartRoutes.js:175-189 | 200 with the looked-up cart, or 404 "Cart not found" |
| CartRoutes.CartStore.Add | backend/routes/cartRoutes.js:30-100 | 404 "Product not found" with no change; an existing cart gets the line added and its total recomputed (200); otherwise a new cart is created (201); carts stay well formed |
| CartRoutes.CartStore.Update | backend/routes/cartRoutes.js:105-136 | 404 for a missing cart or key, with no change; otherwise the line is updated or removed and the total recomputed; carts stay well formed |
| CartRoutes.CartStore.Remove | backend/routes/cartRoutes.js:142-169 | 404 for a missing cart or key, with no change; otherwise the first matching line is removed and the total recomputed; carts stay well formed |
| CartRoutes.CartStore.Merge | backend/routes/cartRoutes.js:195-254 | both carts: the user cart is merged and re-totalled, the guest cart deleted, and the response is the same whether the delete fails; guest only: the cart is reassigned to the user without a guest id; user only: returned unchanged; neither: 404 |
| OrderRoutes.FindOrder | backend/routes/orderRoutes.js:29 | `findById`: the first order with the id, or none exactly when there is none |
| OrderRoutes.OwnedBy | backend/routes/orderRoutes.js:13 | exactly the orders whose owner is the requester |
| OrderRoutes.InsertNewestFirst | backend/routes/orderRoutes.js:13-15 | inserting into a newest-first list keeps it newest-first and adds exactly that order |
| OrderRoutes.SortNewestFirst | backend/routes/orderRoutes.js:13-15 | `sort({createdAt: -1})`: newest first, and a permutation of its input |
| OrderRoutes.MyOrders | backend/routes/orderRoutes.js:10-21 | exactly the requester's orders (as a multiset), newest first |
| OrderRoutes.GetOrder | backend/routes/orderRoutes.js:26-51 | 404 "Order not found" for an unknown id; 403 "Not authorized to view this order" for another owner's order; the stored order itself for its owner |
| AdminOrderRoutes.ApplyStatusUpdate | backend/routes/adminOrderRoutes.js:30-43 | the status changes only to a truthy new status; `"Delivered"` marks the order delivered (it is never unmarked) and stamps the time; no other field changes |
| AdminOrderRoutes.ApplyAllDelivered | backend/routes/adminOrderRoutes.js:35-36 | after any run of updates, an order is delivered exactly when it was already delivered or one update said `"Delivered"`; its identity, owner, price and creation time never change |
| AdminOrderRoutes.ApplyAllDeliveredAt | backend/routes/adminOrderRoutes.js:39-41 | `deliveredAt` is the time of the last `"Delivered"` update |
| AdminOrderRoutes.ApplyAllNoDelivery | backend/routes/adminOrderRoutes.js:32-41 | updates without `"Delivered"` leave `isDelivered` and `deliveredAt` alone |
| AdminOrderRoutes.RemoveOrderAtEffect | backend/routes/adminOrderRoutes.js:63-66 | with unique ids, deleting the found order removes exactly the orders with its id |
| AdminOrderRoutes.OrderStore.GetAll | backend/routes/adminOrderRoutes.js:11-20 | the whole collection |
| AdminOrderRoutes.OrderStore.UpdateStatus | backend/routes/adminOrderRoutes.js:28-52 | 404 with no change for an unknown id; otherwise only the found order is updated as above, and it is returned |
| AdminOrderRoutes.OrderStore.Delete | backend/routes/adminOrderRoutes.js:60-74 | 404 with no change for an unknown id; otherwise that order leaves, whatever its status, the others keep their order, and the reply is "Order removed" |
| AdminUsers.ToPublic | server/routes/adminRoutes.js:13 | a user without the password, with every other field kept |
| AdminUsers.EmailTaken | server/routes/adminRoutes.js:28-29 | `User.findOne({ email })` finds a user: some user holds the email |
| AdminUsers.EmailConflict | server/routes/adminRoutes.js:72-77 | the update is refused exactly when the new email is truthy, differs from the user's own and is held by some user |
| AdminUsers.FindUser | server/routes/adminRoutes.js:66 | `findById`: a user with the id, or none exactly when there is none |
| AdminUsers.UpdatedUser | server/routes/adminRoutes.js:69-79 | name, email and role each take the new value when it is truthy, else keep the old one; id and password never change |
| AdminUsers.UpdateKeepsUnique | server/routes/adminRoutes.js:68-81 | an update the route accepts keeps ids and emails unique |
| AdminUsers.RemoveUserAtEffect | server/routes/adminRoutes.js:98-101 | with unique ids, deleting the found user removes exactly the users with its id |
| AdminUsers.UserTable.List | server/routes/adminRoutes.js:10-19 | every user, in order, without the password |
| AdminUsers.UserTable.Create | server/routes/adminRoutes.js:25-58 | an email already in the table gives 400 "User already exists" with no change; otherwise the user is appended with role given or `"customer"`, and the reply omits the password |
| AdminUsers.UserTable.Update | server/routes/adminRoutes.js:64-90 | 404 for an unknown id; 400 with no change when a different truthy email is already taken; otherwise the field-wise update is saved and echoed |
| AdminUsers.UserTable.Delete | server/routes/adminRoutes.js:96-109 | 404 for an unknown id; otherwise exactly the users with that id leave, and the others keep their order |
| IdLists.IndexOfId | client/src/redux/slices/adminOrderSlice.js:122-124 | `findIndex` by id: the first match, or -1 exactly when there is none |
| IdLists.RemoveById | client/src/redux/slices/adminSlice.js:186 | `filter` by id: no element with the id is left; every other element is kept, and nothing new appears |
| IdLists.RemoveByIdAppend | client/src/redux/slices/adminSlice.js:186 | filtering works part by part on a concatenation, so the kept elements keep their order |
| IdLists.RemoveAbsentId | client/src/redux/slices/adminOrderSlice.js:147-149 | filtering out an absent id changes nothing |
| IdLists.RemoveUniqueId | client/src/redux/slices/adminOrderSlice.js:145-149 | with unique ids, filtering out a present id is splicing out its one element |
| IdLists.RemoveByIdUnique | client/src/redux/slices/adminProductSlice.js:151-153 | filtering keeps ids unique |
| IdLists.ReplaceSameIdUnique | client/src/redux/slices/adminProductSlice.js:135-137 | writing an element over one with the same id keeps ids unique |
| IdLists.AppendNewIdUnique | client/src/redux/slices/adminProductSlice.js:118 | appending an element with a new id keeps ids unique |
| AdminOrderSlice.PriceOf | client/src/redux/slices/adminOrderSlice.js:97 | `order.totalPrice \|\| 0` |
| AdminOrderSlice.Sales | client/src/redux/slices/adminOrderSlice.js:96-98 | the sales `reduce`: with no negative price the total is not negative |
| AdminOrderSlice.SalesAppend | client/src/redux/slices/adminOrderSlice.js:96-98 | the sales of two lists laid end to end add up |
| AdminOrderSlice.SalesReplace | client/src/redux/slices/adminOrderSlice.js:126-129 | replacing an order moves the sales by the price difference |
| AdminOrderSlice.RemovePresentOrder | client/src/redux/slices/adminOrderSlice.js:145-155 | with unique ids, filtering out a present order leaves one order fewer and takes its price off the sales |
| AdminOrderSlice.AdminOrderState.constructor | client/src/redux/slices/adminOrderSlice.js:69-75 | the initial state: no orders, count and sales 0, not loading, no error, consistent |
| AdminOrderSlice.AdminOrderState.ClearOrderError | client/src/redux/slices/adminOrderSlice.js:77-79 | only the error is cleared |
| AdminOrderSlice.AdminOrderState.Pending | client/src/redux/slices/adminOrderSlice.js:84-87 | loading, no error, and the list and totals unchanged |
| AdminOrderSlice.AdminOrderState.FetchFulfilled | client/src/redux/slices/adminOrderSlice.js:88-107 | an array sets the list, its length and its sales, and keeps the state consistent when the ids are unique; a wrapper sets its fields, defaulting to [], 0 and 0 |
| AdminOrderSlice.AdminOrderState.FetchRejected | client/src/redux/slices/adminOrderSlice.js:108-111 | the payload message, else the error message, else "Failed to fetch all orders" |
| AdminOrderSlice.AdminOrderState.UpdateFulfilled | client/src/redux/slices/adminOrderSlice.js:118-130 | the first order with the id is replaced in place (the list is unchanged without one); the length never changes; the sales are recomputed and move by the price difference; the state stays consistent |
| AdminOrderSlice.AdminOrderState.UpdateRejected | client/src/redux/slices/adminOrderSlice.js:131-134 | the payload message or "Failed to update order status"; nothing else changes |
| AdminOrderSlice.AdminOrderState.DeleteFulfilled | client/src/redux/slices/adminOrderSlice.js:141-156 | orders with the id leave; when one was present the count drops by one and the sales by its price, otherwise nothing changes; the state stays consistent |
| AdminOrderSlice.AdminOrderState.DeleteRejected | client/src/redux/slices/adminOrderSlice.js:157-160 | the payload message or "Failed to delete order"; nothing else changes |
| AdminSlice.NewUserOf | client/src/redux/slices/adminSlice.js:126 | `payload?.user \|\| payload` |
| AdminSlice.AdminUserState.constructor | client/src/redux/slices/adminSlice.js:94-98 | the initial state: no users, not loading, no error |
| AdminSlice.AdminUserState.Pending | client/src/redux/slices/adminSlice.js:103-106 | loading, no error, the list unchanged |
| AdminSlice.AdminUserState.FetchFulfilled | client/src/redux/slices/adminSlice.js:107-110 | the payload when it is an array, else [] |
| AdminSlice.AdminUserState.FetchRejected | client/src/redux/slices/adminSlice.js:111-115 | the payload message or "Failed to fetch users", and the list emptied |
| AdminSlice.AdminUserState.AddFulfilled | client/src/redux/slices/adminSlice.js:122-139 | the new user is appended only when it has a truthy id, otherwise the list is unchanged; a fresh id keeps ids unique |
| AdminSlice.AdminUserState.AddRejected | client/src/redux/slices/adminSlice.js:140-150 | the payload's message, else its error, else the fixed fallback |
| AdminSlice.AdminUserState.UpdateFulfilled | client/src/redux/slices/adminSlice.js:157-173 | the first user with the id is replaced in place (the list is unchanged without one); the length is preserved and ids stay unique |
| AdminSlice.AdminUserState.UpdateRejected | client/src/redux/slices/adminSlice.js:174-177 | the payload message or "Failed to update user" |
| AdminSlice.AdminUserState.DeleteFulfilled | client/src/redux/slices/adminSlice.js:184-187 | every user with the id leaves and the others keep their order; with unique ids that is one splice |
| AdminSlice.AdminUserState.DeleteRejected | client/src/redux/slices/adminSlice.js:188-191 | the payload message or "Failed to delete user" |
| AdminProductSlice.AdminProductState.constructor | client/src/redux/slices/adminProductSlice.js:83-87 | the initial state: no products, not loading, no error |
| AdminProductSlice.AdminProductState.ClearProductError | client/src/redux/slices/adminProductSlice.js:90-92 | only the error is cleared |
| AdminProductSlice.AdminProductState.Pending | client/src/redux/slices/adminProductSlice.js:97-100 | loading, no error, the list unchanged |
| AdminProductSlice.AdminProductState.FetchFulfilled | client/src/redux/slices/adminProductSlice.js:101-104 | the list is the payload, not loading |
| AdminProductSlice.AdminProductState.FetchRejected | client/src/redux/slices/adminProductSlice.js:105-109 | the payload message, else the error message, else "Failed to fetch products" |
| AdminProductSlice.AdminProductState.CreateFulfilled | client/src/redux/slices/adminProductSlice.js:116-119 | the new product at the end, the earlier ones unchanged; a fresh id keeps ids unique |
| AdminProductSlice.AdminProductState.CreateRejected | client/src/redux/slices/adminProductSlice.js:120-123 | the payload message or "Failed to create product" |
| AdminProductSlice.AdminProductState.UpdateFulfilled | client/src/redux/slices/adminProductSlice.js:130-138 | the first product with the id is replaced in place, or the list is unchanged; the length is preserved |
| AdminProductSlice.AdminProductState.UpdateRejected | client/src/redux/slices/adminProductSlice.js:139-142 | the payload message or "Failed to update product" |
| AdminProductSlice.AdminProductState.DeleteFulfilled | client/src/redux/slices/adminProductSlice.js:149-154 | products with the id leave and the rest keep their order; ids stay unique |
| AdminProductSlice.AdminProductState.DeleteRejected | client/src/redux/slices/adminProductSlice.js:155-158 | the payload message or "Failed to delete product" |
| AuthSlice.GetItem | client/src/redux/slices/authSlice.js:6 | `localStorage.getItem`: the stored value, or null exactly when the key is absent |
| AuthSlice.AuthState.constructor | client/src/redux/slices/authSlice.js:5-27 | a truthy stored guest identifier is kept; otherwise `guest_` + now is minted and stored; the user is the decoded stored user info, or none; not loading and no error |
| AuthSlice.AuthState.Logout | client/src/redux/slices/authSlice.js:83-92 | no user; a new guest identifier, stored; user info and token removed from storage; no error, not loading |
| AuthSlice.AuthState.GenerateNewGuestId | client/src/redux/slices/authSlice.js:94-97 | only the guest identifier and its stored copy change |
| AuthSlice.AuthState.Pending | client/src/redux/slices/authSlice.js:102-105 | loading and no error; nothing else changes |
| AuthSlice.AuthState.SignedIn | client/src/redux/slices/authSlice.js:106-113 | login or register fulfilled: the user is the payload, and the guest identifier is rotated and stored |
| AuthSlice.AuthState.Rejected | client/src/redux/slices/authSlice.js:114-117 | not loading, the error is the payload; nothing else changes |
| ClientCart.LinesOf | frontend/src/components/Layout/CartDrawer.jsx:17 | `cart?.products`, with a missing cart or list read as no lines |
| ClientCart.PriceFold | frontend/src/components/Layout/CartDrawer.jsx:16-20 | the client's left-to-right `reduce` is its start plus the server's total formula |
| ClientCart.CartTotalPrice | frontend/src/components/Layout/CartDrawer.jsx:16-20 | the drawer's subtotal is the total the server stores for the same lines, and 0 for none |
| ClientCart.QuantityFold | frontend/src/components/Common/Navbar.jsx:19-21 | with no negative quantity the count never falls below its start |
| ClientCart.CartItemCount | frontend/src/components/Common/Navbar.jsx:19-21 | the `\|\| 0` fallback never changes the count, and no lines count 0 |
| ClientCart.QuantityFoldAppend | frontend/src/components/Common/Navbar.jsx:19-21 | the item count of two lists laid end to end is the count of the second, started from the count of the first |
| ClientCart.QuantityFoldShift | frontend/src/components/Common/Navbar.jsx:19-21 | the count started from a value is that value plus the count |
| ClientCart.ItemCountAfterAdd | frontend/src/components/Common/Navbar.jsx:19-21 | after the server adds a line, the item count grows by exactly the added quantity |
| ClientCart.BadgeLabel | frontend/src/components/Common/Navbar.jsx:98-100 | no badge exactly when the count is not positive; `99+` above 99; otherwise one or two digits that read back as the count |
| ClientCart.NavbarView | frontend/src/components/Common/Navbar.jsx:75-100 | the badge as above; the Admin link exactly for a signed-in admin; the profile link to `/profile` when signed in, else `/login` |
| ClientCart.ToggleCartDrawer | frontend/src/components/Common/Navbar.jsx:27-29 | flips the cart drawer and nothing else |
| ClientCart.ToggleNavDrawer | frontend/src/components/Common/Navbar.jsx:23-25 | flips the navigation drawer and nothing else |
| ClientCart.OnKeyDown | frontend/src/components/Layout/CartDrawer.jsx:24-28 | Escape closes an open cart drawer; any other key, or a closed drawer, changes nothing |
| ClientCart.CheckoutEffects | frontend/src/components/Layout/CartDrawer.jsx:41-52 | the drawer is toggled first; then navigation to `/checkout` when signed in, else to `/login?redirect=checkout` |
| ClientCart.CartDrawerView | frontend/src/components/Layout/CartDrawer.jsx:91-115 | the line list and the checkout footer appear exactly when the cart has a line, which is exactly when the contents are not empty; the subtotal is the server total |
| ClientCart.ContentsEmpty | frontend/src/components/Cart/CartContents.jsx:35-37 | the empty-cart message shows exactly when the cart has no line |
| ClientCart.StepRequest | frontend/src/components/Cart/CartContents.jsx:10-28 | an update is sent exactly when quantity + delta is at least 1; it carries that quantity and the line's own key |
| ClientCart.MinusDisabled | frontend/src/components/Cart/CartContents.jsx:73 | the minus button is disabled exactly when a step of -1 would send nothing |
| ClientCart.StepNeverRemoves | frontend/src/components/Cart/CartContents.jsx:10-25 | a step the client sends never removes the line on the server: it finds the line and sets the key's quantity to the new value |
| ClientCart.RemoveRequestFor | frontend/src/components/Cart/CartContents.jsx:30-32 | the removal carries the line's own key |
| LoginPage.Contains | frontend/src/pages/Login.jsx:20 | `includes`: true exactly when the text occurs at some index |
| LoginPage.IsCheckoutRedirect | frontend/src/pages/Login.jsx:20 | the redirect counts as the checkout when it contains `checkout` |
| LoginPage.Redirect | frontend/src/pages/Login.jsx:18 | the query's `redirect`, or `/` when it is missing or empty |
| LoginPage.Target | frontend/src/pages/Login.jsx:31 | `/checkout` when the redirect mentions checkout, otherwise the redirect itself |
| LoginPage.ShouldMerge | frontend/src/pages/Login.jsx:24 | a merge is due when the cart has a line and the guest identifier is truthy |
| LoginPage.LoginEffects | frontend/src/pages/Login.jsx:22-43 | nothing while signed out; the merge only for a cart with a line and a truthy guest identifier; navigation to the target always comes last |
| LoginPage.CheckoutRedirectLeadsToCheckout | frontend/src/pages/Login.jsx:20 | any redirect containing `checkout` leads to `/checkout` |
| LoginFlow.SignInThenEffects | client/src/redux/slices/authSlice.js:106-113 | as written: the merge sent after a sign-in names the freshly minted guest identifier, never the one the guest cart was kept under |
| LoginFlow.SignInMergingGuestCart | frontend/src/pages/Login.jsx:23-29 | corrected: the merge names the guest identifier of the session that signed in, then navigation follows |
| UserLayout.CartFetchArgs | client/src/components/Layout/UserLayout.jsx:15-29 | no fetch without a user id or a guest identifier; signed in, the user id alone; signed out, the guest identifier alone; so exactly one is set, and the server looks up the same owner |
| UserLayout.FetchFindsStateCart | client/src/components/Layout/UserLayout.jsx:19-26 | the fetched cart is the one the server would find for the full state |
| ProductDetails.ProductFetchId | frontend/src/components/Products/ProductDetails.jsx:23 | the `productId` prop when it is truthy, otherwise the route id |
| ProductDetails.ProductPanel.constructor | frontend/src/components/Products/ProductDetails.jsx:16-20 | no image, size or color; quantity 1; the button enabled |
| ProductDetails.ProductPanel.ProductLoaded | frontend/src/components/Products/ProductDetails.jsx:34-45 | with images: the first becomes the main image, and the first size and color are preselected when those lists are non-empty; without images nothing changes |
| ProductDetails.ProductPanel.SelectImage | frontend/src/components/Products/ProductDetails.jsx:137 | only the main image changes |
| ProductDetails.ProductPanel.SelectSize | frontend/src/components/Products/ProductDetails.jsx:210 | only the size changes |
| ProductDetails.ProductPanel.SelectColor | frontend/src/components/Products/ProductDetails.jsx:190 | only the color changes |
| ProductDetails.ProductPanel.QuantityChange | frontend/src/components/Products/ProductDetails.jsx:48-51 | "plus" adds one; "minus" subtracts one only above one; the quantity stays at least one |
| ProductDetails.ProductPanel.AddToCart | frontend/src/components/Products/ProductDetails.jsx:53-72 | nothing is sent exactly when the size or color is unselected; otherwise the request carries the product id, quantity (at least one), selection and both identities, and the button is disabled |
| ProductDetails.ProductPanel.AddSettled | frontend/src/components/Products/ProductDetails.jsx:85-87 | the button is enabled again and nothing else changes |
| EditProduct.Split | frontend/src/components/Admin/EditProductPage.jsx:179 | `split(",")`: at least one piece, none holding a comma; a comma-free text is its own only piece |
| EditProduct.SplitJoin | frontend/src/components/Admin/EditProductPage.jsx:179 | joining the pieces with commas gives back the text |
| EditProduct.Join | frontend/src/components/Admin/EditProductPage.jsx:175 | `join(sep)`: the pieces with the separator between them; with commas it undoes `Split` (`SplitJoin`, `JoinSplit`) |
| EditProduct.ShowList | frontend/src/components/Admin/EditProductPage.jsx:175 | what the size and color inputs display, `join(", ")`; parsing it gives a clean list back (`ParseShowRoundTrip`) |
| EditProduct.Trim | frontend/src/components/Admin/EditProductPage.jsx:179 | `trim()`: a slice of the input with only white space cut off before and after it, and none left at either end; an already trimmed text unchanged |
| EditProduct.Clean | frontend/src/components/Admin/EditProductPage.jsx:179 | trimming comma-free pieces and dropping the empty ones leaves only clean entries |
| EditProduct.TrimAll | frontend/src/components/Admin/EditProductPage.jsx:179 | `map(s => s.trim())`: one trimmed piece per piece, at the same position |
| EditProduct.TrimAllAppend | frontend/src/components/Admin/EditProductPage.jsx:179 | trimming all works part by part on a concatenation |
| EditProduct.NonEmpty | frontend/src/components/Admin/EditProductPage.jsx:179 | `filter(s => s !== "")`: exactly the non-empty entries remain |
| EditProduct.NonEmptyAppend | frontend/src/components/Admin/EditProductPage.jsx:179 | the filter works part by part on a concatenation, so the kept entries keep their order |
| EditProduct.CleanIsTrimFilter | frontend/src/components/Admin/EditProductPage.jsx:179 | the one-pass clean equals trimming every piece and then keeping the non-empty ones |
| EditProduct.ParseList | frontend/src/components/Admin/EditProductPage.jsx:179 | the stored list is `split(",")`, then `trim` on every piece, then the non-empty ones; it never holds an empty, untrimmed or comma-bearing entry |
| EditProduct.JoinSplit | frontend/src/components/Admin/EditProductPage.jsx:179 | splitting comma-free pieces joined with commas gives the pieces back |
| EditProduct.ParseJoin | frontend/src/components/Admin/EditProductPage.jsx:179 | comma-free pieces entered with commas between them are stored as their trimmed non-blank pieces, in order |
| EditProduct.SplitAppend | frontend/src/components/Admin/EditProductPage.jsx:179 | a comma splits the text into the pieces before it followed by the pieces after it |
| EditProduct.ParseListAppend | frontend/src/components/Admin/EditProductPage.jsx:179 | text entered in two stretches around a comma is stored as the two stretches' lists one after the other |
| EditProduct.ParseShownAfter | frontend/src/components/Admin/EditProductPage.jsx:175-179 | the displayed join of a clean list, after an optional blank, reads back as that list |
| EditProduct.ParseShowRoundTrip | frontend/src/components/Admin/EditProductPage.jsx:175-179 | parsing the `join(", ")` display of non-empty, trimmed, comma-free entries gives the list back |
| EditProduct.ParseShowParse | frontend/src/components/Admin/EditProductPage.jsx:193-197 | displaying a parsed list and reading it back changes nothing |
| EditProduct.HandleChange | frontend/src/components/Admin/EditProductPage.jsx:49-52 | only the named field changes, to the input's value |
| EditProduct.SetSizes | frontend/src/components/Admin/EditProductPage.jsx:176-181 | the sizes become the parsed input, a clean list; nothing else changes |
| EditProduct.SetColors | frontend/src/components/Admin/EditProductPage.jsx:194-199 | the colors become the parsed input, a clean list; nothing else changes |
| EditProduct.RedisplayKeepsForm | frontend/src/components/Admin/EditProductPage.jsx:175-197 | re-entering the displayed sizes or colors leaves a clean form as it was |
| EditProduct.ImageUploaded | frontend/src/components/Admin/EditProductPage.jsx:72-76 | exactly one `{url, altText: ""}` is appended at the end; nothing else changes |
| EditProduct.ImageRemoved | frontend/src/components/Admin/EditProductPage.jsx:85-91 | the images are filtered by url: every image with the url leaves, the others stay in order; nothing else changes |
| EditProduct.RemoveAfterUpload | frontend/src/components/Admin/EditProductPage.jsx:72-91 | removing a just-uploaded url leaves the form as removing that url before the upload would |

## Left out

- Express routing, `async`/`await`, the axios thunks and MongoDB itself are
  left out. Each handler and each reducer case runs as one atomic step.
  Concurrent writers on the same cart are not modelled.
- The 500 "Server Error" paths are not modelled. They are reached when a
  lookup, `save` or `create` throws, for instance when the schema refuses a
  line (`CartModel.CastLineItem`).
- CartRoutes.CartStore.Add: does not model the refusal of a line whose
  product has an empty name or whose image url is empty. The stored cart is
  stated as if the save succeeded.
- The casting of ids to MongoDB ObjectIds is not modelled. Ids are
  strings, and `toString()` comparisons are string equality.
- `populate` of the order's and cart's user is not modelled. An order's
  owner is its user id, so the crash on an order whose user was deleted is
  not modelled either.
- The `createdAt`/`updatedAt` timestamps are not modelled. The one
  exception is the order's `createdAt`, which the newest-first sort reads.
- Prices are integers; the floats of the source, `toFixed` and
  `toLocaleString` are not modelled.
- A non-numeric quantity in a cart request is not modelled.
- The server does not enforce quantities of at least one. The model keeps
  what the code does: an add with any quantity is accepted.
- Authentication is left out: JWT, password hashing, and the `protect` and
  `admin` middleware. The authenticated user of the merge route is a
  parameter.
- A merge request without a guest identifier is not modelled. The login
  page sends one only when it is truthy.
- Uploads and the Cloudinary call are left out; the uploaded url is a
  parameter. Seeding is left out too.
- Order creation, payment and checkout are not part of this model.
- `JSON.parse` of the stored user info is a function given to
  `AuthSlice.AuthState.constructor`.
- The login and register thunks' own writes of `userInfo` and `userToken`
  to storage are not part of this model.
- Rendering, toasts, console logging and navigation are left out.
  Navigation is returned as an effect value.
- AdminSlice.AdminUserState.UpdateFulfilled: the guard that resets a
  non-array `users` cannot fire in the model, because the list is always a
  sequence. The same holds for the guard in `AddFulfilled`.
- AdminOrderSlice.AdminOrderState.FetchFulfilled: a wrapper's `orders` that
  is present but not an array is not modelled.
- AdminProductSlice.AdminProductState.FetchFulfilled: a payload that is not
  a list is not modelled.
- ClientCart.CartDrawerView: treats a `products` value that is not an array
  as missing, as `CartContents` does; the drawer's own optional chain is not
  distinguished from that.
- EditProduct.HandleChange: covers the text inputs it is wired to. A change
  event named `sizes`, `colors` or `images` is not modelled.
- ProductDetails.ProductPanel.ProductLoaded: the products thunk that loads
  the product is left out; the loaded product is a parameter.
- The similar-products fetch is left out.

## Findings

| source | as written | input that shows it | evidently intended | confidence | as-written member | corrected member |
|---|---|---|---|---|---|---|
| client/src/redux/slices/authSlice.js:106-113 | Login fulfilled sets the user and rotates `guestId` in the same reducer step. The login page's effect reacts to the new user and sends `mergeCart` with the `guestId` it reads then, which is the new one. | A guest with identifier `guest_1` and a cart with one line signs in at time 2. The merge names `guest_2`, no cart has that guest identifier, and the guest cart is never merged (`CartRoutes.CartStore.Merge` with no guest cart). | The merge names the guest identifier the session had before signing in. The comment at line 110 says the page uses the old identifier. | medium; not executed | LoginFlow.SignInThenEffects | LoginFlow.SignInMergingGuestCart |
