# usafirewood storefront core, in Dafny

A model of the ordering core of the usafirewood firewood storefront, a
Next.js application backed by Supabase tables. The model covers:

- **Server cart** (`src/app/actions/cart.ts`): each signed-in user gets one
  cart, created lazily. It holds `cart_items` rows with a quantity and the
  price copied when the row was inserted. Adding a product that is already in
  the cart merges it into the existing row.
- **Order placement** (`src/app/actions/orders.ts`): `createOrder` turns the
  cart into an `orders` row plus `order_items` rows that snapshot each line. A
  failed items insert triggers a best-effort rollback, and the cart is cleared
  after a successful order. `getPaymentMethods` lists the active payment
  methods in display order.
- **Admin actions** (`src/app/actions/admin.ts`):
  - the `checkAdmin` gate;
  - the two independent status axes of an order: fulfilment and payment;
  - the payment-method on/off toggle;
  - product-image insertion, deletion (including extraction of the storage
    path) and the choice of the primary image.
- **Delivery pricing** (`src/lib/utils/delivery.ts`): the fee tiered by
  distance, the delivery radius and the ZIP / ZIP+4 format.
- **Admin image editor** (`src/components/admin/ImageUpload.tsx`): list
  editing over entry objects that the handlers share and change in place.
- **Browser cart page** (`src/app/cart/page.tsx`): a second cart kept in
  local storage and joined with catalog rows for display.
- **Form schemas** (`src/lib/validations/schemas.ts`) as predicates.

Modules, one per file:

- **Wrappers** (`wrappers.dfy`): `Option`.
- **Entities** (`entities.dfy`): table rows as datatypes and the stored
  spellings of the enumerations.
- **Text** (`text.dfy`): the JavaScript `includes`, `startsWith` and
  `split`/`join`.
- **Store** (`store.dfy`):
  - the `Db` class, whose fields are the tables;
  - the row filters and updates the actions issue;
  - the invariants "one cart per user", "distinct item ids" and "at most one
    row per (cart, product)".
- **CartActions**, **OrderActions** and **AdminActions**: the server actions,
  as methods on `Db`.
- **Delivery**, **ImageUpload**, **LocalCart** and **Validation**: the
  remaining core files.

The environment enters through parameters:

- The signed-in user is an `Option<UserId>`.
- The clock is a `now` parameter.
- Each storage call that can fail takes a fault parameter. It is a flag, or
  `Some(message)` where the source puts the storage error's message into its
  reply. Where the source reads a row without inspecting the error, the flag
  makes the row look absent, as it does in the source. The one exception is
  the cart lookup of `getCart` (see "Left out").
- Configuration read from environment variables (delivery fees, radius, flat
  fee) is a parameter. The source's fallback values are constants.
- Row ids come from a counter `Db.nextId`.
- Money and distances are `real`; quantities are `int`.

## Model

| member | source | states |
|---|---|---|
| CartActions.LiveItems | src/app/actions/cart.ts:68-69 | a (row, product) pair is returned exactly when the row is in the cart and its product still exists, paired with that product |
| CartActions.FindOrCreateCart | src/app/actions/cart.ts:16-36 | the user's existing cart is returned unchanged; otherwise a new cart with a fresh id is appended, unless its insert fails; one cart per user is kept |
| CartActions.CartOfAppend | src/app/actions/cart.ts:101-116 | after the first cart of a user is appended, the cart lookup finds that cart |
| CartActions.GetCart | src/app/actions/cart.ts:6-73 | null without a user or when creating the missing cart fails; otherwise the user's cart with its live items, or with no items when reading them fails; an id is used up only when a cart is created |
| CartActions.ExistingLine | src/app/actions/cart.ts:132-142 | the `maybeSingle` lookup yields a row of that cart and product; when it yields none and rows are unique per (cart, product), no such row exists |
| CartActions.AddLine | src/app/actions/cart.ts:132-170 | definition of the merge-or-insert step: add the quantity to the row the lookup finds, else append a row at the current price; AddLineIds, AddLineMerges and AddTwiceSums state its properties |
| CartActions.HeldQuantity | src/app/actions/cart.ts:144-151 | definition: the quantity of the row the lookup finds, or zero; AddLineMerges states that an add raises it by the added quantity |
| CartActions.AddLineIds | src/app/actions/cart.ts:144-170 | merging keeps row ids distinct; only an inserted row takes the new id |
| CartActions.AddLineMerges | src/app/actions/cart.ts:144-170 | adding keeps one row per (cart, product) and distinct ids; that row ends holding the old quantity plus the added one, at the price of the first add; every other row is untouched |
| CartActions.MergedLine | src/app/actions/cart.ts:144-156 | merging into the existing row leaves it the pair's only row, holding the summed quantity, and no other row changes |
| CartActions.InsertedLine | src/app/actions/cart.ts:158-170 | inserting the pair's first row makes it the pair's only row and keeps both row invariants |
| CartActions.AddTwiceSums | src/app/actions/cart.ts:144-170 | adding the same product twice to a cart that lacks it leaves one row whose quantity is the sum |
| CartActions.AddToCart | src/app/actions/cart.ts:75-180 | login, cart-fetch and cart-create errors change nothing; an unknown product or a failed product read reports "Product not found" and changes no row; a failed write changes no row and names the update or the insert with the storage error appended; a cart created on the way is kept; otherwise the rows are exactly the merge into that cart |
| CartActions.RemoveFromCart | src/app/actions/cart.ts:202-213 | on success exactly the rows with that id are gone; on failure nothing changes |
| CartActions.UpdateCartItemQuantity | src/app/actions/cart.ts:182-200 | a quantity of zero or less behaves exactly as removal; otherwise only that row's quantity changes; one row per product is kept |
| CartActions.ClearCart | src/app/actions/cart.ts:215-243 | without a user it is an error; a user without a cart, or whose cart read fails, succeeds with no change; otherwise exactly the rows of that user's cart are deleted, or nothing changes when the delete fails |
| CartActions.ClearEmptiesOnlyThatCart | src/app/actions/cart.ts:235 | after clearing, the cart has no rows and every other cart keeps its rows in order |
| CartActions.ItemsOfWithoutCart | src/app/actions/cart.ts:235 | deleting one cart's rows does not change another cart's rows |
| Store.WithoutItem | src/app/actions/cart.ts:205 | the rows kept are exactly those with another id; distinct ids and one row per product are preserved |
| Store.WithoutCart | src/app/actions/cart.ts:235 | the rows kept are exactly those of other carts; both row invariants are preserved |
| Store.ItemsOf | src/app/actions/cart.ts:39-55 | the rows of one cart are exactly the table's rows with that cart id, and none when no row has it |
| Store.LinesFor | src/app/actions/cart.ts:133-138 | the rows of one (cart, product) pair; there is at most one when rows are unique per pair |
| Store.WithQuantity | src/app/actions/cart.ts:189-192 | only rows with that id change, and only their quantity; both row invariants are preserved |
| Store.CartOf | src/app/actions/cart.ts:90-94 | the cart found belongs to the user; when none is found the user has no cart |
| Store.WithoutFreshOrder | src/app/actions/orders.ts:126-127 | deleting the order just appended restores the orders table exactly |
| Store.WithoutOrder | src/app/actions/orders.ts:126-127 | the rollback keeps exactly the orders with another id |
| Store.Db.constructor | src/types/database.ts:1-134 | an empty database over a given catalog, payment methods and profiles satisfies the invariants (ids below the counter, distinct cart-line and image ids, one cart per user) |
| OrderActions.Snapshot | src/app/actions/orders.ts:50-63 | an order line copies the product's current name, SKU, wood type, unit type and heat treatment but the price stored at add time, and totals quantity times that price |
| OrderActions.SnapshotIgnoresCurrentPrice | src/app/actions/orders.ts:51-61 | changing the catalog price does not change the order line |
| OrderActions.OrderLines | src/app/actions/orders.ts:50-64 | one line per cart row, in row order |
| OrderActions.ComputeTotals | src/app/actions/orders.ts:48-64 | the single pass returns the order lines and the running subtotal of quantity times price at add |
| OrderActions.SubtotalMatchesLines | src/app/actions/orders.ts:49-64 | the subtotal equals the sum of the lines' totals |
| OrderActions.CartSubtotalAppend | src/app/actions/orders.ts:49-52 | the subtotal of two parts of a cart is the sum of their subtotals |
| OrderActions.CartSubtotal | src/app/actions/orders.ts:49-52 | definition of the running `subtotal +=` sum of quantity times price at add; CartSubtotalAppend, CartSubtotalNonNegative and SubtotalMatchesLines state its properties |
| OrderActions.CartSubtotalNonNegative | src/app/actions/orders.ts:49-52 | non-negative quantities and prices give a non-negative subtotal |
| OrderActions.DeliveryFeeFor | src/app/actions/orders.ts:66-69 | pickup costs nothing; delivery costs the flat fee |
| OrderActions.OrderNumber | src/app/actions/orders.ts:74-76 | the generated number is used unless it is missing or empty, in which case the fallback is used |
| OrderActions.NewOrder | src/app/actions/orders.ts:71-105 | the order copies the checkout fields (shipping details, delivery type, coordinates, payment method, proof URL and notes), has tax 0, total = subtotal + fee + tax, both statuses pending and no timestamps |
| OrderActions.OrderTotalByDeliveryType | src/app/actions/orders.ts:66-72 | a pickup order's total is its subtotal; a delivery order adds the flat fee |
| OrderActions.Tagged | src/app/actions/orders.ts:114-118 | each order line becomes one order item of that order, in order |
| OrderActions.CartRows | src/app/actions/orders.ts:32-42 | the rows of the user's cart, or none when the user has no cart |
| OrderActions.WriteOrder | src/app/actions/orders.ts:78-137 | a failed order insert writes nothing; a failed items insert deletes the order again, or leaves it when the rollback fails; on success the order and its items are appended and the cart is cleared unless that fails |
| OrderActions.CreateOrder | src/app/actions/orders.ts:7-138 | without a user, with an empty cart or a failed cart read ("Your cart is empty"), or with a row whose product is gone, nothing is written; otherwise the order is built from the cart rows and written as WriteOrder states |
| OrderActions.PlaceOrder | src/app/actions/orders.ts:48-137 | from a non-empty cart whose products resolve, the order is built from the cart's subtotal and written with one item per cart row |
| OrderActions.PlacedOrderAddsUp | src/app/actions/orders.ts:48-72 | the lines of a placed order plus its delivery fee and tax add up to its total |
| OrderActions.ActiveMethods | src/app/actions/orders.ts:205-208 | exactly the active payment methods |
| OrderActions.InsertByDisplayOrder | src/app/actions/orders.ts:209 | inserting into a list ordered by display order keeps it ordered and adds exactly that method |
| OrderActions.ByDisplayOrder | src/app/actions/orders.ts:209 | the result is ordered by display order and is a permutation of the input |
| OrderActions.CheckoutPaymentMethods | src/app/actions/orders.ts:202-217 | a failed query gives an empty list; otherwise the active methods in display order, as a permutation |
| OrderActions.CheckoutOffersActive | src/app/actions/orders.ts:205-209 | a method is offered if and only if it is stored and active |
| AdminActions.CheckAdmin | src/app/actions/admin.ts:8-29 | admitted if and only if a user is signed in, the profile read succeeds and the profile role is admin; no user redirects to login; anyone else, a failed read included, to the dashboard |
| AdminActions.WithStatus | src/app/actions/admin.ts:171-180 | sets the status; shipped, delivered and cancelled stamp their own timestamp; the payment fields and everything else stay |
| AdminActions.WithPayment | src/app/actions/admin.ts:201-205 | sets the payment status; only paid stamps `paid_at`; the status and its timestamps stay |
| AdminActions.StatusAndPaymentCommute | src/app/actions/admin.ts:164-217 | the two axes are independent: applying them in either order gives the same order |
| AdminActions.AnyTransitionAccepted | src/app/actions/admin.ts:171-182 | any status may follow any other; the later update stamps its own end state and the earlier end state keeps its timestamp |
| AdminActions.UpdateOrders | src/app/actions/admin.ts:182 | the update applies to the rows with that id and to no other row |
| AdminActions.UpdateOrderStatus | src/app/actions/admin.ts:164-192 | a redirect or a failure changes nothing; otherwise the order with that id gets the new status (an unknown id is not an error) |
| AdminActions.UpdatePaymentStatus | src/app/actions/admin.ts:194-217 | a redirect or a failure changes nothing; otherwise the order with that id gets the new payment status |
| AdminActions.StatusUpdateIsolated | src/app/actions/admin.ts:171-182 | a status update leaves other orders unchanged and never touches payment status, `paid_at`, id or total |
| AdminActions.SetActive | src/app/actions/admin.ts:296-299 | only rows with that id change, and only their active flag |
| AdminActions.TogglePaymentMethodStatus | src/app/actions/admin.ts:292-310 | a redirect, a failure or an unknown id changes nothing and reports an error; otherwise the method's active flag becomes the negation of the caller's value |
| AdminActions.StaleToggleIsNoOp | src/app/actions/admin.ts:298 | a toggle sent with a stale current value leaves the table unchanged instead of flipping it |
| AdminActions.ToggleFlipsOnlyThatMethod | src/app/actions/admin.ts:296-300 | with the stored value as input, the method's flag flips and every other method is unchanged |
| AdminActions.ImageRows | src/app/actions/admin.ts:431-436 | one row per input image, in order, for the given product |
| AdminActions.ImageRowsFresh | src/app/actions/admin.ts:428-438 | the inserted rows all belong to the product, carry fresh distinct ids and copy url and primary flag |
| AdminActions.AddProductImages | src/app/actions/admin.ts:421-449 | a redirect or a failure inserts nothing; otherwise the rows are appended after the existing images |
| AdminActions.StoragePath | src/app/actions/admin.ts:456-462 | no path unless the URL contains "supabase"; a path found is exactly the text after the first bucket marker and contains no further marker; a URL with "supabase" whose text after the first marker has no marker gives that text |
| AdminActions.StoragePathTwoParts | src/app/actions/admin.ts:456-459 | a path is found if and only if the URL contains "supabase" and splits on the bucket marker into exactly two parts |
| AdminActions.StoragePathNeedsOneMarker | src/app/actions/admin.ts:458-459 | a URL without the bucket marker names no object |
| AdminActions.DeleteProductImage | src/app/actions/admin.ts:451-476 | the storage object is removed first, its failure ignored; the row is then deleted, or the action reports an error with the object already gone |
| AdminActions.WithoutImage | src/app/actions/admin.ts:466 | exactly the images with another id are kept |
| AdminActions.ClearPrimary | src/app/actions/admin.ts:483-486 | the product's images lose their primary flag and no other image changes |
| AdminActions.MarkPrimary | src/app/actions/admin.ts:489-492 | the chosen image becomes primary and no other image changes |
| AdminActions.SetProductImagePrimary | src/app/actions/admin.ts:478-503 | a redirect changes nothing; otherwise the clear is applied unless it fails, then the mark is applied unless it fails (and that failure is reported) |
| AdminActions.SetPrimaryLeavesOnlyChosen | src/app/actions/admin.ts:482-492 | after both updates, among the product's images exactly those with the chosen id are primary |
| AdminActions.SetPrimaryExactlyOne | src/app/actions/admin.ts:482-492 | when the chosen image belongs to the product and ids are unique, the product ends with exactly one primary image |
| AdminActions.IgnoredClearFailureKeepsOldPrimary | src/app/actions/admin.ts:483-486 | when the unchecked clear fails, an old primary image stays primary next to the new one |
| Delivery.DeliveryFee | src/lib/utils/delivery.ts:35-44 | the base fee up to ten miles; beyond that at least the base fee, and strictly more when the rate is positive |
| Delivery.DeliveryFeeMonotone | src/lib/utils/delivery.ts:39-43 | with a non-negative rate the fee never falls as the distance grows |
| Delivery.DeliveryFeeLipschitz | src/lib/utils/delivery.ts:39-43 | the fee rises by at most the rate times the added distance, so there is no jump at ten miles |
| Delivery.DeliveryFeeExamples | src/lib/utils/__tests__/delivery.test.ts:37-49 | 5 and 10 miles cost 15; 15 cost 25; 20 cost 35; 12.5 cost 20 |
| Delivery.IsDeliveryAvailable | src/lib/utils/delivery.ts:49-52 | definition: deliverable up to and including the maximum radius; AvailableCloser and AvailabilityExamples state its properties |
| Delivery.AvailableCloser | src/lib/utils/delivery.ts:49-52 | if a distance is deliverable, every shorter one is |
| Delivery.AvailabilityExamples | src/lib/utils/__tests__/delivery.test.ts:64-76 | 0, 25 and 50 miles are within the default radius; 51 and 100 are not |
| Delivery.ZipRunAfterHyphen | src/lib/utils/delivery.ts:71 | after the hyphen the pattern accepts exactly the remaining digits |
| Delivery.ZipRunBeforeHyphen | src/lib/utils/delivery.ts:71 | before the hyphen the pattern accepts exactly the rest of either shape |
| Delivery.IsValidZipCode | src/lib/utils/delivery.ts:70-73 | valid if and only if five ASCII digits, optionally followed by a hyphen and four digits |
| Delivery.ZipExamples | src/lib/utils/delivery.ts:70-73 | "12345" and "12345-6789" pass; "1234", "12345-" and "12345 6789" fail |
| Text.IndexOf | src/app/actions/admin.ts:456-458 | the leftmost occurrence, or none at all |
| Text.Split | src/app/actions/admin.ts:458 | at least one part, and no part contains the separator; a string without the separator is its only part; otherwise there are two or more parts and the first is the text before the leftmost separator |
| Text.JoinSplit | src/app/actions/admin.ts:458 | joining the parts with the separator gives back the string |
| ImageUpload.ImageFiles | src/components/admin/ImageUpload.tsx:57 | exactly the files whose MIME type starts with "image/" |
| ImageUpload.ExtensionDot | src/components/admin/ImageUpload.tsx:73 | finds the dot that starts the extension, or shows that no dot does |
| ImageUpload.ExtensionDotUnique | src/components/admin/ImageUpload.tsx:73 | a name has at most one dot that starts an extension |
| ImageUpload.StripExtension | src/components/admin/ImageUpload.tsx:73 | the name is cut at the dot that starts a non-empty extension free of '.' and '/'; a name with no such extension is unchanged |
| ImageUpload.NewImages | src/components/admin/ImageUpload.tsx:66-77 | each new image has its preview URL, the name without extension as alt text, its pending file, and is primary if and only if the list was empty |
| ImageUpload.AfterFiles | src/components/admin/ImageUpload.tsx:56-83 | no image files leave the list unchanged; otherwise the old list is kept as the prefix and exactly the new-image entries for the picked files follow it |
| ImageUpload.AfterFilesKeepsPrimary | src/components/admin/ImageUpload.tsx:72-79 | adding files keeps a primary image in a non-empty list |
| ImageUpload.AllPrimaryNotExactlyOne | src/components/admin/ImageUpload.tsx:72 | two or more images that are all primary do not have exactly one primary |
| ImageUpload.FirstBatchAllPrimary | src/components/admin/ImageUpload.tsx:72 | a first batch of two or more images is primary throughout, so it breaks "exactly one primary" |
| ImageUpload.LaterBatchNotPrimary | src/components/admin/ImageUpload.tsx:72 | images added to a non-empty list are never primary |
| ImageUpload.RemovedAt | src/components/admin/ImageUpload.tsx:110-120 | index i is dropped and the rest keep their order and fields; the new first image is primary if it was, or if the removed one was |
| ImageUpload.RemovedAtKeepsPrimary | src/components/admin/ImageUpload.tsx:113-116 | removal keeps a primary image in a non-empty list |
| ImageUpload.RemovedAtKeepsExactlyOne | src/components/admin/ImageUpload.tsx:110-116 | removal keeps exactly one primary image while one or more images remain |
| ImageUpload.WithPrimaryAt | src/components/admin/ImageUpload.tsx:122-129 | only the primary flags change, and image i alone is primary |
| ImageUpload.WithPrimaryAtExactlyOne | src/components/admin/ImageUpload.tsx:123-126 | on a valid index exactly one image is primary afterwards |
| ImageUpload.WithAltText | src/components/admin/ImageUpload.tsx:131-136 | only image i's alt text changes |
| ImageUpload.WithAltTextKeepsPrimaries | src/components/admin/ImageUpload.tsx:131-136 | editing alt text keeps "a primary image" and "exactly one primary image" |
| ImageUpload.UploadedImages | src/components/admin/ImageUpload.tsx:143-157 | images without a file are kept; uploaded ones get their public URL and lose the file; nothing pending remains |
| ImageUpload.Uploaded1 | src/components/admin/ImageUpload.tsx:145-153 | one image gives nothing exactly when its upload fails; otherwise one image with no pending file, its primary flag and alt text, and an image without a file is kept as it is |
| ImageUpload.UploadedImagesAppend | src/components/admin/ImageUpload.tsx:144-156 | the order is kept: the images of a prefix come out before those of the rest |
| ImageUpload.UploadedImagesCount | src/components/admin/ImageUpload.tsx:149-156 | exactly the images whose upload fails are dropped: survivors plus failures make up the list |
| ImageUpload.UploadedImagesOrigin | src/components/admin/ImageUpload.tsx:145-153 | every image that comes out is the kept or uploaded form of one that went in |
| ImageUpload.UploadAllSucceed | src/components/admin/ImageUpload.tsx:143-157 | when every upload succeeds, nothing is dropped and each image keeps its place, primary flag and alt text |
| ImageUpload.Materialize | src/components/admin/ImageUpload.tsx:66-77 | fresh, distinct entries holding the given values |
| ImageUpload.ImageUploadState.constructor | src/components/admin/ImageUpload.tsx:19-25 | the initial list holds the stored images, with a missing alt text read as empty |
| ImageUpload.ImageUploadState.HandleFiles | src/components/admin/ImageUpload.tsx:56-83 | the list becomes AfterFiles of the old list, and the old entries stay in place |
| ImageUpload.ImageUploadState.RemoveImage | src/components/admin/ImageUpload.tsx:110-120 | the list becomes RemovedAt of the old list and keeps the old entry objects |
| ImageUpload.ImageUploadState.SetPrimaryImage | src/components/admin/ImageUpload.tsx:122-129 | the list becomes WithPrimaryAt of the old list |
| ImageUpload.ImageUploadState.UpdateAltText | src/components/admin/ImageUpload.tsx:131-136 | the list becomes WithAltText of the old list |
| LocalCart.Line | src/app/cart/page.tsx:43-50 | a line keeps the entry's product and quantity; a missing product, or an empty name or unit, shows "Unknown", price 0 and unit "unit" |
| LocalCart.JoinCatalog | src/app/cart/page.tsx:42-51 | one line per stored entry, in stored order |
| LocalCart.WithoutProduct | src/app/cart/page.tsx:81 | a filter of the stored list: exactly the entries of other products are kept and none is added; order and repeats are stated by WithoutProductAppend |
| LocalCart.WithoutProductAppend | src/app/cart/page.tsx:81 | removal works entry by entry: removing from a joined list is removing from each part and joining the results, so order and repeats are kept |
| LocalCart.WithQuantity | src/app/cart/page.tsx:69-71 | only entries of the product change, and only their quantity |
| LocalCart.Subtotal | src/app/cart/page.tsx:112 | definition of the `reduce` sum of quantity times price; SubtotalCons, SubtotalNonNegative and RemoveLowersSubtotal state its properties |
| LocalCart.SubtotalCons | src/app/cart/page.tsx:112 | the subtotal is the first line's amount plus the rest's subtotal |
| LocalCart.SubtotalNonNegative | src/app/cart/page.tsx:112 | lines with no negative quantity or price give a non-negative subtotal |
| LocalCart.RemoveLowersSubtotal | src/app/cart/page.tsx:77-85 | removing a product lowers the displayed subtotal (line 112) by exactly its quantity times its price |
| LocalCart.RemovedProductHoldsNothing | src/app/cart/page.tsx:81 | after removal the product holds no quantity |
| LocalCart.RemoveForgetsUpdate | src/app/cart/page.tsx:61-85 | removing after a quantity change is the same as removing straight away |
| LocalCart.UpdateKeepsOtherQuantities | src/app/cart/page.tsx:69-71 | a quantity change leaves every other product's quantity as it was |
| LocalCart.CartPage.LoadCart | src/app/cart/page.tsx:24-59 | with no stored cart or no query result the display stays as it was; otherwise it is the join |
| LocalCart.CartPage.RemoveItem | src/app/cart/page.tsx:77-85 | with a stored cart the product's entries are dropped and the display reloaded; without one nothing changes |
| LocalCart.CartPage.UpdateQuantity | src/app/cart/page.tsx:61-75 | below one it is exactly RemoveItem; otherwise the product's entries get the new quantity and the display is reloaded; without a stored cart nothing changes |
| Validation.ParseUnitType | src/lib/validations/schemas.ts:13 | an accepted unit type reads back as its own spelling |
| Validation.ParseDeliveryType | src/lib/validations/schemas.ts:54 | an accepted delivery type reads back as its own spelling |
| Validation.ParseOrderStatus | src/lib/validations/schemas.ts:78 | an accepted order status reads back as its own spelling |
| Validation.ParsePaymentStatus | src/lib/validations/schemas.ts:83 | an accepted payment status reads back as its own spelling |
| Validation.EnumRoundTrips | src/lib/validations/schemas.ts:13-83 | every stored spelling is accepted as the value it spells |
| Validation.ParsersAcceptExactlyNames | src/lib/validations/schemas.ts:13-83 | each enumeration accepts a string if and only if it spells one of its values |
| Validation.ValidProduct | src/lib/validations/schemas.ts:4-24 | definition of `productSchema` over the fields it constrains: name and slug of 1 to 200 characters, positive price, whole stock of zero or more, a known unit, moisture 0 to 100, positive weight, meta fields of at most 60 and 160 characters |
| Validation.ValidCartQuantity | src/lib/validations/schemas.ts:29-36 | definition: a whole, positive quantity, as both cart schemas demand |
| Validation.ValidAddToCart | src/lib/validations/schemas.ts:29-32 | definition: a UUID product id and a valid quantity |
| Validation.ValidCartQuantityAtLeastOne | src/lib/validations/schemas.ts:29-36 | a valid cart quantity is a whole number of at least one |
| Validation.ValidQuantityGrowsHolding | src/lib/validations/schemas.ts:29-32 | with a quantity the cart schema accepts, a successful add raises what the cart holds of the product by at least one |
| Validation.ValidFormsChargePositive | src/lib/validations/schemas.ts:4-32 | a product priced as the product schema demands, added with a quantity the cart schema accepts, gives an order line with a positive total |
| Validation.ValidCheckout | src/lib/validations/schemas.ts:39-59 | definition of `checkoutSchema`: email, non-empty name, address and city, phone of ten or more characters, two-character state, the ZIP rule, delivery or pickup, a UUID payment method, notes of at most 500 characters |
| Validation.ValidCheckoutAddress | src/lib/validations/schemas.ts:39-59 | a valid checkout has a two-character state, a ZIP of length 5 or 10 with a hyphen in the middle, and delivery or pickup |
| Validation.ValidPaymentMethod | src/lib/validations/schemas.ts:64-72 | definition of `paymentMethodSchema`: a name of 1 to 100 characters, a URL when a QR code is given, a whole display order of zero or more |
| Validation.ValidCategory | src/lib/validations/schemas.ts:100-107 | definition of `categorySchema`: name and slug of 1 to 100 characters, a URL when an image is given, a whole display order of zero or more |
| Validation.ValidOrderStatusUpdate | src/lib/validations/schemas.ts:77-80 | definition: a known order status and admin notes of at most 1000 characters |
| Validation.ValidPaymentStatusUpdate | src/lib/validations/schemas.ts:82-84 | definition: a known payment status |
| Validation.StatusUpdatesAcceptNames | src/lib/validations/schemas.ts:77-84 | the status schemas accept exactly the status spellings, with admin notes of at most 1000 characters |
| Validation.ValidStatusUpdateStored | src/lib/validations/schemas.ts:77-84 | a status or payment status that passes its schema is stored by the admin update as the value it spells |
| Validation.ValidProfile | src/lib/validations/schemas.ts:87-95 | definition of `profileUpdateSchema`: a non-empty name, a state of at most two characters, and a ZIP by the delivery utility's rule when one is given |
| Validation.ZipRuleShared | src/lib/validations/schemas.ts:50-94 | a ZIP code accepted at checkout is accepted on the profile form, by the same rule as the delivery utility |

## Left out

- `calculateDistance` (great-circle distance with trigonometry and rounding to cents) and the `getCoordinatesFromZip` placeholder are not modelled. The fee and the radius check take the distance as an input.
- Floating point is not modelled. Money, distances and products of quantity and price are exact reals, so JavaScript rounding and the order of summation do not show.
- `parseFloat` of environment variables is not modelled. The configured amounts are parameters; the fallback values 15, 2, 50 and 25 are constants.
- Row ids are natural numbers from a counter, not database-generated UUIDs. The random fallback order number, built from the time and a random string, is a parameter. Uniqueness of order numbers is not modelled.
- `revalidatePath`, `console` logging, `alert`, the `uploading` and drag flags, and `onImagesChange` are not modelled. They change no modelled state.
- CartActions.GetCart: a failure of the cart lookup itself is not modelled. The source treats it like "no cart" and creates one; the model's lookup always succeeds, and the invariant "one cart per user" rules out the multi-row case.
- CartActions.AddToCart: the source's default quantity of 1 (src/app/actions/cart.ts:75) is not modelled. The model always takes the quantity as an argument, so a caller that omits it passes 1.
- Row order within a query result is not modelled. A query result is the table's insertion order, and the database's own order for `cart_items` is not modelled.
- The `catch` of `addToCart` ("An unexpected error occurred") is not modelled. No modelled step throws there.
- In `createOrder`, a cart row whose product is gone makes the source throw when it reads the product's name. The model returns `Threw` before any write.
- OrderActions.ByDisplayOrder: the database's order among equal display orders is not fixed. The model proves sortedness and permutation, not a particular tie order.
- AdminActions.TogglePaymentMethodStatus: the model treats an id with no row as the error `.single()` reports. A table holding two rows with the same id is not considered.
- The other admin actions are not modelled: product, category, payment-method and user CRUD, plus the listing queries. Each is a single pass-through query behind `checkAdmin`, and they are outside this core.
- Parsing the local-storage JSON is not modelled, nor its failure. The stored cart is held already parsed, and the `loadCart` query result is a parameter.
- The asynchronous order of state updates in React (`loadCart` running after the write) is not modelled. Each handler reloads synchronously.
- The uploaded file name (time plus random suffix) and the storage upload call are not modelled. They are folded into the `upload` parameter of ImageUpload.UploadedImages.
- String lengths are counted in characters, not UTF-16 code units.
- Concurrency between requests is not modelled. Each action runs alone on the database.
- The email, UUID and URL checks of the schema library are parameters.
