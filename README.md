# RegionalMart storefront core in Dafny

RegionalMart is a React storefront for groceries and household goods. It runs over a hosted row
store with the tables `users`, `carts`, `cart_items`, `orders`, `order_items`, `user_addresses`,
`payment_methods`, `wishlist`, `reviews`, `review_likes` and `review_comments`. This project models
the logic the storefront runs over those tables:

- **Cart engine** (`cart_table.dfy`, `cart_context.dfy`). The cart provider finds or creates the
  signed-in user's cart, then fetches its lines newest first. Adding a variant that is already in the
  cart raises that line's quantity; otherwise a line is inserted with a snapshot of the price, name,
  image and weight. It also models updating a quantity (any value, written unchecked), removing a
  line, clearing the cart, and the total and count derived from the fetched list. The tables are
  sequences of rows. Row ids and `created_at` stamps come from one counter. A write the store refuses
  is an argument of the operation.
- **Checkout** (`checkout.dfy`). Covers the free-shipping threshold (free above ₹500, otherwise
  ₹50), picking the default address, the order row and its items, and the amount in paise handed to
  the gateway. It also models the two placement paths, online payment and cash on delivery.
- **Account pages.**
  - The address form's defaults and validation (`address_form.dfy`).
  - The address book and the saved payment methods, with their single-default discipline
    (`owned_rows.dfy`, `address_management.dfy`, `payment_methods.dfy`).
  - The password rules shared by sign-up and account settings (`passwords.dfy`, `sign_up.dfy`,
    `account_settings.dfy`).
  - The wishlist, the browsing-history date label and recommendation labels (`wishlist.dfy`,
    `browsing_history.dfy`, `recommendations.dfy`), and the quick-add buttons those lists share
    (`listed_products.dfy`).
- **Product pages.**
  - The post-processing of fetched products: normalised pricing, average rating and review counts
    (`catalog.dfy`).
  - The detail view and the card (`product_detail.dfy`, `product_card.dfy`).
  - The review section's likes, comments and expanded threads (`review_section.dfy`) and the star
    picker of the review form (`review_form.dfy`).
- **Chrome** (`header.dfy`, `help.dfy`, `order_success.dfy`). Covers the cart badge, the search box,
  the menus, the FAQ accordion and the order confirmation page.

`text.dfy` and `seqs.dfy` hold the string and sequence operations the rest needs: JavaScript's
`trim`, upper-casing, `slice`, decimal rendering, `filter` and `reverse`.

Components that keep state in React hooks become classes whose fields are those hooks plus the rows
they read and write. Each handler is a method whose `ensures` gives the new state in terms of the old
one. A network reply or a store outcome is an argument, as are a `confirm` answer and the current
time.

## Model

| member | source | states |
|---|---|---|
| CartTable.CartIndex | src/contexts/CartContext.tsx:72-78 | finds the first cart row of the owner, or reports that the owner has none |
| CartTable.CartIndexAppend | src/contexts/CartContext.tsx:83-91 | after a cart row is appended, lookups still find an owner's existing cart, and find the new row only for an owner who had none |
| CartTable.EnsureCartFinds | src/contexts/CartContext.tsx:70-95 | get-or-create yields a cart exactly when one existed or the insert succeeded; it never creates a second cart for an owner and never touches other owners' carts |
| CartTable.LineIndex | src/contexts/CartContext.tsx:140-147 | finds the first line of the cart with that variant, or reports that none exists |
| CartTable.SetQuantity | src/contexts/CartContext.tsx:201-206 | the line with that id gets the new quantity; every other line is untouched |
| CartTable.TotalAppend | src/contexts/CartContext.tsx:270-274 | the total and the count of two lists joined are the sums of each |
| CartTable.TotalReverse | src/contexts/CartContext.tsx:108-112 | fetching newest first does not change the cart total or count |
| CartTable.SetQuantitySums | src/contexts/CartContext.tsx:201-206 | after an update, the cart's count and total change only by that line's difference |
| CartTable.AddMergesIntoExisting | src/contexts/CartContext.tsx:150-155 | adding a variant already in the cart keeps the table length and raises only that line's quantity |
| CartTable.AddMergeSums | src/contexts/CartContext.tsx:150-155 | a merged add raises the cart count by the quantity and the total by the line's snapshot price times the quantity |
| CartTable.AddLineMerges | src/contexts/CartContext.tsx:140-155 | a merged add is an update of the existing line to its quantity plus the added quantity |
| CartTable.MergeSums | src/contexts/CartContext.tsx:150-155 | raising one line's quantity changes its cart's count and total by exactly that amount |
| CartTable.MergeTotal | src/contexts/CartContext.tsx:150-155 | raising one line's quantity raises its cart's total by the snapshot price times the increase |
| CartTable.AddInsertsNewLine | src/contexts/CartContext.tsx:164-183 | adding a new variant appends one line carrying the price, name, image and weight snapshot, and raises the count by the quantity |
| CartTable.AddKeepsTableOk | src/contexts/CartContext.tsx:139-191 | adding keeps line ids distinct, below the counter and ordered by creation, with at most one line per cart and variant |
| CartTable.AddTwiceMerges | src/contexts/CartContext.tsx:139-191 | adding the same variant twice leaves one line holding both quantities at the first price snapshot |
| CartTable.LineIndexAfterMiss | src/contexts/CartContext.tsx:140-147 | after a miss, an appended line is the one later lookups find |
| CartTable.SetQuantityKeepsTableOk | src/contexts/CartContext.tsx:201-206 | updating a quantity keeps the table's invariant |
| CartTable.DeleteRemovesExactlyOne | src/contexts/CartContext.tsx:220-225 | deleting an existing id removes exactly that line and keeps the rest in order |
| CartTable.DeleteKeepsTableOk | src/contexts/CartContext.tsx:220-225 | deleting keeps the table's invariant |
| CartTable.DeleteAbsentId | src/contexts/CartContext.tsx:220-225 | deleting an unknown id changes nothing |
| CartTable.ClearEmptiesOnlyThatCart | src/contexts/CartContext.tsx:253-256 | clearing empties that cart, leaves every other cart's lines as they were and keeps the invariant |
| CartTable.ClearSelects | src/contexts/CartContext.tsx:253-256 | the cart-wide delete removes exactly the lines of that cart |
| CartTable.FetchedNewestFirst | src/contexts/CartContext.tsx:108-115 | the fetched list holds exactly the cart's lines, newest first, with the same total and count |
| CartTable.LinesOfCons | src/contexts/CartContext.tsx:108-110 | selecting a cart's lines distributes over the head of the table |
| CartTable.SetQuantityAbsent | src/contexts/CartContext.tsx:201-206 | updating an unknown id changes nothing |
| CartTable.IdsDistinct | src/contexts/CartContext.tsx:164-183 | under the table's invariant no two lines share an id |
| CartTable.AmountGrows | src/contexts/CartContext.tsx:270-272 | a line's amount grows by the snapshot price times the added quantity |
| CartContext.CartProvider.constructor | src/contexts/CartContext.tsx:41-44 | the provider starts with the given tables, no user and an empty list |
| CartContext.CartProvider.SignedOutSumsZero | src/contexts/CartContext.tsx:46-52 | with nobody signed in the count and total are zero |
| CartContext.CartProvider.GetOrCreateCart | src/contexts/CartContext.tsx:70-95 | returns the owner's cart id, creating the row when there is none and the insert succeeds |
| CartContext.CartProvider.RefreshCart | src/contexts/CartContext.tsx:97-121 | replaces the list by the user's cart lines newest first, keeps it when there is no profile or cart, and leaves the line table alone |
| CartContext.CartProvider.OnUserChange | src/contexts/CartContext.tsx:46-52 | a sign-in refreshes: the profile's cart is found or created and the list becomes its lines newest first, or stays as it was when there is no profile or no cart; a sign-out empties the list and touches no table |
| CartContext.CartProvider.AddToCart | src/contexts/CartContext.tsx:123-199 | throws sign-in, missing-profile, missing-cart or the store's error in that order; otherwise merges or inserts, then refreshes |
| CartContext.CartProvider.WriteLine | src/contexts/CartContext.tsx:139-191 | the line table becomes the merge or the insert of the added variant, and nothing else changes |
| CartContext.CartProvider.UpdateQuantity | src/contexts/CartContext.tsx:201-218 | writes the quantity unchecked, then refreshes; a refused write throws and changes nothing |
| CartContext.CartProvider.RemoveFromCart | src/contexts/CartContext.tsx:220-237 | deletes the line, then refreshes; a refused write throws and changes nothing |
| CartContext.CartProvider.ClearCart | src/contexts/CartContext.tsx:239-268 | returns quietly without a profile; otherwise finds or creates the cart, deletes all of its lines and empties the list, keeping the cart row; a missing cart or a refused delete throws with the lines and list unchanged |
| Checkout.Shipping | src/pages/CheckoutPage.tsx:38 | shipping is 0 exactly when the subtotal exceeds 500, and 50 otherwise |
| Checkout.GrandTotal | src/pages/CheckoutPage.tsx:37-39 | the total lies between the subtotal and the subtotal plus 50, and equals the subtotal exactly above the threshold |
| Checkout.GrandTotalDropsAtThreshold | src/pages/CheckoutPage.tsx:38 | a 500 basket pays 550 while a 501 basket pays 501 |
| Checkout.Paise | src/pages/CheckoutPage.tsx:155 | the gateway amount is a whole number of rupees in paise |
| Checkout.FirstDefault | src/pages/CheckoutPage.tsx:77 | finds the first default address, or reports that none exists |
| Checkout.SelectAddress | src/pages/CheckoutPage.tsx:76-82 | with addresses fetched, one of them is selected, and it is a default exactly when any is; with none fetched the selection stays |
| Checkout.SelectedIsListingHead | src/pages/CheckoutPage.tsx:68-82 | over the default-first listing, checkout selects its head, which is the user's own and is the default when one exists |
| Checkout.OrderItems | src/pages/CheckoutPage.tsx:120-125 | one order item per cart line, with its variant, quantity and snapshot price |
| Checkout.ItemsTotalMatchesCart | src/pages/CheckoutPage.tsx:120-125 | the items' total equals the cart total |
| Checkout.OrderAddsUp | src/pages/CheckoutPage.tsx:102-113 | a new order's amount is the grand total with its shipping, in status pending and processing |
| Checkout.Entry | src/pages/CheckoutPage.tsx:41-53 | a signed-out visitor goes to sign-in, an empty cart goes back to the cart, otherwise details load |
| Checkout.CheckoutPage.constructor | src/pages/CheckoutPage.tsx:31-35 | nothing is selected and the payment method is online payment |
| Checkout.CheckoutPage.FetchUserData | src/pages/CheckoutPage.tsx:55-87 | loads the profile and its addresses default first, and selects the default |
| Checkout.CheckoutPage.CreateOrder | src/pages/CheckoutPage.tsx:98-136 | appends the order and, unless that write is refused, its items; no profile or address means no order |
| Checkout.CheckoutPage.PlaceOrder | src/pages/CheckoutPage.tsx:138-247 | without an address only prompts; online payment opens the gateway for the order total in paise and leaves the cart; cash on delivery places the order, finds or creates the user's cart, deletes exactly that cart's stored lines and empties the shown list |
| AddressForm.InitialDefaults | src/components/Account/AddressForm.tsx:11-20 | a new form is labelled Home, in India, not default, with the other fields empty |
| AddressForm.InitialFromSeed | src/components/Account/AddressForm.tsx:11-20 | each field holds the edited address's column when it is present and non-empty, and the blank form's value otherwise (label "Home", country "India"); the default box is ticked exactly when the row is the default |
| AddressForm.ValidIffNoErrors | src/components/Account/AddressForm.tsx:34-56 | a form is valid exactly when no field has an error |
| AddressForm.PincodeMessages | src/components/Account/AddressForm.tsx:49-53 | a blank PIN is "required", any other non six-digit PIN "must be 6 digits", and the PIN passes exactly when it is six digits |
| AddressForm.UntrimmedPincodeRefused | src/components/Account/AddressForm.tsx:49-53 | a PIN with surrounding spaces is refused although its trimmed form is six digits |
| AddressForm.PaddedPinTrims | src/components/Account/AddressForm.tsx:49-53 | a space-padded PIN trims to its six digits |
| AddressForm.TrimStartDropsLeading | src/components/Account/AddressForm.tsx:49-53 | trimming drops exactly the leading whitespace |
| AddressForm.OptionalFieldsNeverErr | src/components/Account/AddressForm.tsx:34-54 | the second line, the country and the default flag are never in error |
| AddressForm.Edited | src/components/Account/AddressForm.tsx:74-79 | an edit sets that field (the checkbox from its checked state) and leaves the others |
| AddressForm.ClearedErrors | src/components/Account/AddressForm.tsx:81-84 | an edit blanks that field's error and keeps the rest |
| AddressForm.AddressFormState.constructor | src/components/Account/AddressForm.tsx:11-23 | the form starts from the seed with no errors |
| AddressForm.AddressFormState.ValidateForm | src/components/Account/AddressForm.tsx:34-57 | errors hold exactly the failing fields with their messages, and the answer is validity |
| AddressForm.AddressFormState.HandleSubmit | src/components/Account/AddressForm.tsx:59-72 | a valid form is submitted once; an invalid one only shows its errors |
| AddressForm.AddressFormState.HandleChange | src/components/Account/AddressForm.tsx:74-85 | edits the field and clears its error |
| OwnedRows.ClearDefaults | src/components/Account/AddressManagement.tsx:129-132 | every row of the user loses its default flag; other users' rows are untouched |
| OwnedRows.MarkDefault | src/components/Account/AddressManagement.tsx:135-138 | the row with that id becomes default; nothing else changes |
| OwnedRows.UpdateRow | src/components/Account/AddressManagement.tsx:87-90 | the row with that id gets the new fields and flag; nothing else changes |
| OwnedRows.SetDefaultLeavesOnlyChosen | src/components/Account/AddressManagement.tsx:124-149 | clearing then marking leaves the chosen row as the user's only default and other users' rows untouched |
| OwnedRows.SkippedClearKeepsOldDefault | src/components/Account/AddressManagement.tsx:128-138 | when the clearing write is refused but the marking succeeds, the user has two defaults |
| OwnedRows.DeleteRemovesOnlyThatRow | src/components/Account/AddressManagement.tsx:108-111 | delete keeps exactly the rows with other ids |
| OwnedRows.DeleteKeepsIds | src/components/Account/AddressManagement.tsx:108-111 | delete keeps the remaining ids distinct |
| OwnedRows.DeleteKeepsBound | src/components/Account/AddressManagement.tsx:108-111 | delete keeps every remaining id below the id counter |
| OwnedRows.UpdatedRow | src/components/Account/AddressManagement.tsx:85-102 | after an update that keeps one default, the edited row has the submitted flag and another row of the same user loses its flag exactly when the edit sets one |
| OwnedRows.DefaultFirstSorts | src/components/Account/AddressManagement.tsx:46-50 | the default-first ordering is a permutation with all defaults ahead |
| OwnedRows.ListingStartsWithDefault | src/components/Account/AddressManagement.tsx:46-50 | when the user has a default, the listing starts with it |
| OwnedRows.InsertDefaultBreaksOneDefault | src/components/Account/AddressManagement.tsx:69-71 | inserting a default address for a user who has one leaves two defaults |
| OwnedRows.UpdateDefaultBreaksOneDefault | src/components/Account/AddressManagement.tsx:87-90 | marking an edited address default while another is default leaves two |
| OwnedRows.InsertKeepsOneDefault | src/components/Account/AddressManagement.tsx:69-71 | inserting after clearing the user's defaults keeps at most one default per user |
| OwnedRows.UpdateKeepsOneDefault | src/components/Account/AddressManagement.tsx:87-90 | updating after clearing the user's defaults keeps at most one default per user |
| AddressManagement.AddressBook.constructor | src/components/Account/AddressManagement.tsx:19-31 | the page starts loading with no addresses and no open form |
| AddressManagement.AddressBook.Fetch | src/components/Account/AddressManagement.tsx:33-63 | shows the user's addresses default first |
| AddressManagement.AddressBook.AddAddress | src/components/Account/AddressManagement.tsx:65-83 | inserts the row as submitted, closes the form and refetches; a refused insert changes nothing |
| AddressManagement.AddressBook.UpdateAddress | src/components/Account/AddressManagement.tsx:85-102 | an accepted write rewrites the row as submitted, closes the editor and refetches the signed-in user's list; a refused write changes nothing |
| AddressManagement.AddressBook.DeleteAddress | src/components/Account/AddressManagement.tsx:104-122 | a confirmed, accepted delete removes exactly that row and refetches the user's list; otherwise nothing changes |
| AddressManagement.AddressBook.SetDefault | src/components/Account/AddressManagement.tsx:124-149 | clears then marks, each write only if accepted; after an accepted mark the list is refetched, and when both succeed the chosen row is the only default |
| PaymentMethods.PaymentMethodList.constructor | src/components/Account/PaymentMethods.tsx:17-26 | the page starts loading with no methods and the add panel closed |
| PaymentMethods.PaymentMethodList.Fetch | src/components/Account/PaymentMethods.tsx:28-58 | shows the user's methods default first |
| PaymentMethods.PaymentMethodList.SetDefault | src/components/Account/PaymentMethods.tsx:60-85 | clears then marks, each write only if accepted; after an accepted mark the methods are refetched even when the clear was refused, and when both succeed the chosen method is the only default; the add panel is untouched |
| PaymentMethods.PaymentMethodList.DeleteMethod | src/components/Account/PaymentMethods.tsx:87-105 | a confirmed, accepted delete removes exactly that row and refetches the user's methods; otherwise nothing changes |
| PaymentMethods.PaymentMethodList.SetAddPanel | src/components/Account/PaymentMethods.tsx:128-157 | opens or closes the add panel and nothing else |
| Passwords.CheckPasswords | src/components/Auth/SignUpForm.tsx:26-34 | a mismatch is reported first, then a password under 6 UTF-16 units, otherwise the pair is accepted |
| Passwords.MismatchComesFirst | src/components/Account/AccountSettings.tsx:69-77 | a short mismatched pair reports the mismatch; six equal characters pass |
| SignUp.ReplyError | src/components/Auth/SignUpForm.tsx:46-53 | no message exactly when a user came back without error; the store's message when it has one; the fallback for an empty or missing error without a user; the connection message when the store is unreachable |
| SignUp.SignUpForm.constructor | src/components/Auth/SignUpForm.tsx:8-17 | all fields and the error start empty |
| SignUp.SignUpForm.HandleSubmit | src/components/Auth/SignUpForm.tsx:22-56 | a failing check shows its message and sends nothing; otherwise one sign-up request, its error shown, navigation on success |
| AccountSettings.ProfileFields | src/components/Account/AccountSettings.tsx:38-43 | each of first name, last name, email and mobile shows the stored value, or empty text when it is missing |
| AccountSettings.PasswordAlert | src/components/Account/AccountSettings.tsx:66-100 | mismatch, too short, updated or failed: the alert names the first check that fails, and the success alert appears exactly when the passwords pass and the update is accepted |
| AccountSettings.CurrentPasswordIgnored | src/components/Account/AccountSettings.tsx:82-84 | the current-password field has no effect on the outcome |
| AccountSettings.SettingsPage.constructor | src/components/Account/AccountSettings.tsx:8-20 | both forms start empty |
| AccountSettings.SettingsPage.FetchUserProfile | src/components/Account/AccountSettings.tsx:28-47 | a fetched profile fills the form; none leaves it |
| AccountSettings.SettingsPage.HandlePasswordChange | src/components/Account/AccountSettings.tsx:66-100 | alerts per the rules, sends one update for an accepted pair and clears the password form on success |
| Catalog.NormalisePricing | src/hooks/useProducts.ts:55-58 | an absent pricing stays absent, an empty array stays an empty array, otherwise the first or only row is used |
| Catalog.EffectivePrice | src/components/Product/ProductDetail.tsx:100 | a price exists exactly when a pricing row does |
| Catalog.EmptyPricingSurvives | src/hooks/useProducts.ts:57 | an empty pricing array survives normalisation, is truthy and yields no price |
| Catalog.SumBounds | src/hooks/useProducts.ts:50-52 | a sum of values within bounds lies within the bounds times the count |
| Catalog.AverageWithinBounds | src/hooks/useProducts.ts:50-52 | the average of ratings within bounds lies within those bounds |
| Catalog.DivideBetween | src/hooks/useProducts.ts:50-52 | dividing a bounded sum by the count keeps it within the bounds |
| Catalog.Ratings | src/hooks/useProducts.ts:51 | the ratings of the reviews, in order |
| Catalog.NormaliseVariants | src/hooks/useProducts.ts:55-58 | every variant normalised, in order |
| Catalog.ProcessProduct | src/hooks/useProducts.ts:48-59 | the average and count come from the reviews (0 with none), variants are normalised one for one, and id, ASIN, name, slug, about items and images are copied |
| Catalog.ProcessProducts | src/hooks/useProducts.ts:48-59 | a missing result gives an empty list, otherwise each row processed |
| Catalog.ProcessAll | src/hooks/useProducts.ts:48-59 | each row processed, in order |
| Catalog.CountReviews | src/hooks/useProducts.ts:129-133 | each review gets its like and comment counts, 0 when missing |
| Catalog.ProcessDetail | src/hooks/useProducts.ts:118-134 | the detail is the processed product plus its counted reviews |
| Catalog.ProcessedRatingInRange | src/hooks/useProducts.ts:50-53 | with ratings between 1 and 5 the average is 0 without reviews and between 1 and 5 with them |
| Catalog.StarFill | src/components/Product/ProductDetail.tsx:68-80 | a star is full below the floor of the rating and half at the floor when the rating has a fraction |
| Catalog.Stars | src/components/Product/ProductCard.tsx:27-40 | five stars, each filled per the rating |
| Catalog.StarsShowRating | src/components/Product/ProductDetail.tsx:68-80 | the full stars count the whole part, and a half star appears exactly for a fraction, right after them |
| Catalog.StockStatusOf | src/components/Product/ProductDetail.tsx:367-376 | in stock above 10, out of stock at 0 or below, otherwise only that many left |
| Catalog.UnitLabel | src/components/Product/ProductCard.tsx:164-167 | "ml" for millilitres, "g" for anything else |
| Catalog.ImageOr | src/components/Product/ProductCard.tsx:13 | the image at that index when it is present and non-empty, otherwise the placeholder |
| Catalog.FeedbackFor | src/components/Product/ProductDetail.tsx:118-124 | success on completion; a sign-in prompt exactly when the error mentions "sign in"; otherwise failure |
| Catalog.SignedOutPromptsSignIn | src/contexts/CartContext.tsx:123-126 | a signed-out add leads the detail page to the sign-in prompt |
| Catalog.MissingProfileFails | src/contexts/CartContext.tsx:132 | a missing profile shows the generic failure |
| Catalog.MissingCartFails | src/contexts/CartContext.tsx:91 | a missing cart shows the generic failure |
| ListedProducts.FirstVariant | src/components/Account/BrowsingHistory.tsx:99 | the first variant when the list is present and non-empty |
| ListedProducts.FirstPricing | src/components/Account/BrowsingHistory.tsx:100-104 | the first pricing row of that variant when there is one |
| ListedProducts.QuickAdd | src/components/Account/BrowsingHistory.tsx:98-111 | quick add sends the first variant at its first price with quantity 1, and does nothing without a price |
| ListedProducts.EnabledAddsUnlessUnpriced | src/components/Account/BrowsingHistory.tsx:233-241 | an enabled button adds whenever the first variant has a price row |
| ListedProducts.ListFeedback | src/components/Account/BrowsingHistory.tsx:113-117 | these lists show success on completion and never a sign-in prompt |
| ListedProducts.SignedOutGetsGenericFailure | src/components/Account/Wishlist.tsx:129-133 | a signed-out add prompts on the detail page but shows the generic failure in the lists |
| Wishlist.WishedBy | src/components/Account/Wishlist.tsx:56-81 | exactly the user's wishes |
| Wishlist.NewestWishFirst | src/components/Account/Wishlist.tsx:81 | the newest wish comes first |
| Wishlist.WishlistPage.constructor | src/components/Account/Wishlist.tsx:33-41 | the page starts loading with no items |
| Wishlist.WishlistPage.Fetch | src/components/Account/Wishlist.tsx:43-94 | shows the user's wishes newest first |
| Wishlist.WishlistPage.RemoveFromWishlist | src/components/Account/Wishlist.tsx:96-112 | an accepted delete removes exactly that wish and refetches the signed-in user's wishes; a refused one changes nothing |
| BrowsingHistory.DayCount | src/components/Account/BrowsingHistory.tsx:131-133 | the whole days, rounded up, between the view and now |
| BrowsingHistory.FormatDate | src/components/Account/BrowsingHistory.tsx:129-139 | "Today" within a day, "Yesterday" within two, the locale date beyond a week, "n days ago" otherwise |
| BrowsingHistory.SameInstantSaysMinusOne | src/components/Account/BrowsingHistory.tsx:133-137 | a view stamped this very millisecond reads "-1 days ago" |
| BrowsingHistory.FutureLikePast | src/components/Account/BrowsingHistory.tsx:132 | a future stamp is labelled like a past one the same distance away |
| Recommendations.ListAverage | src/components/Account/Recommendations.tsx:133-137 | the mean rating, 0 without reviews |
| Recommendations.ListAverageAgreesWithCatalog | src/components/Account/Recommendations.tsx:133-137 | this average agrees with the catalogue's and is positive exactly when there are reviews |
| Recommendations.TypeLabel | src/components/Account/Recommendations.tsx:154-162 | each known type has its own label, and any other reads "Recommended" |
| ProductDetail.AboutItems | src/components/Product/ProductDetail.tsx:83-89 | the non-empty bullet points and nothing else |
| ProductDetail.AboutItemsKeepOrder | src/components/Product/ProductDetail.tsx:83-89 | dropping an empty bullet keeps the others in order |
| ProductDetail.StockText | src/components/Product/ProductDetail.tsx:367-376 | the stock message for each status, with the count when few are left |
| ProductDetail.ProductView.constructor | src/components/Product/ProductDetail.tsx:17-20 | the first variant and image are selected with quantity 1 |
| ProductDetail.ProductView.Increment | src/components/Product/ProductDetail.tsx:325 | quantity rises by one |
| ProductDetail.ProductView.Decrement | src/components/Product/ProductDetail.tsx:318 | quantity falls by one but never below 1 |
| ProductDetail.ProductView.SelectVariant | src/components/Product/ProductDetail.tsx:272 | selects that variant and nothing else changes |
| ProductDetail.ProductView.SelectImage | src/components/Product/ProductDetail.tsx:217 | selects that image and nothing else changes |
| ProductDetail.ProductView.HandleAddToCart | src/components/Product/ProductDetail.tsx:91-126 | without a selected, truthy pricing nothing is sent; otherwise one request for the selection and quantity, with feedback from the outcome |
| ProductDetail.ProductView.HandleWishlistToggle | src/components/Product/ProductDetail.tsx:128-169 | a signed-in toggle flips the heart and adds or removes the wish when the write is accepted |
| ProductDetail.NegativeStockStillEnabled | src/components/Product/ProductDetail.tsx:337-341 | a negative stock reads "Out of Stock" yet the button stays enabled |
| ProductDetail.EmptyPricingAddsWithoutPrice | src/components/Product/ProductDetail.tsx:92-100 | an empty pricing array passes the guard but has no price |
| ProductCard.MainVariant | src/components/Product/ProductCard.tsx:14 | the first variant, when there is one |
| ProductCard.CardAdd | src/components/Product/ProductCard.tsx:42-68 | the card adds the first variant at its price, and does nothing without a variant or truthy pricing |
| ProductCard.OverlayIgnoresStock | src/components/Product/ProductCard.tsx:106-111 | for a sold-out variant the bottom button is disabled but the overlay still adds |
| ProductCard.CardStockText | src/components/Product/ProductCard.tsx:173-183 | the card's stock message for each status |
| ProductCard.ShowsBadge | src/components/Product/ProductCard.tsx:94-97 | a discount badge exactly when the first variant's pricing has a positive discount |
| ProductCard.RatingRowIffReviewed | src/components/Product/ProductCard.tsx:132 | the rating row shows exactly for products with reviews |
| ReviewSection.Toggled | src/components/Product/ReviewSection.tsx:142-146 | the review's thread is open exactly when it was closed, and the others keep their state |
| ReviewSection.ToggledKeepsNoDuplicates | src/components/Product/ReviewSection.tsx:142-146 | toggling never lists a thread twice |
| ReviewSection.ToggleTwiceFromCollapsed | src/components/Product/ReviewSection.tsx:142-146 | opening then closing restores the list |
| ReviewSection.ToggleTwiceFromExpanded | src/components/Product/ReviewSection.tsx:142-146 | closing then opening moves the thread to the end and keeps the same set |
| ReviewSection.CommentsOn | src/components/Product/ReviewSection.tsx:95-109 | exactly the comments on that review |
| ReviewSection.FindLike | src/components/Product/ReviewSection.tsx:66-71 | finds the user's like of the review exactly when one exists |
| ReviewSection.UnlikeRemovesOnlyThatLike | src/components/Product/ReviewSection.tsx:73-78 | unliking removes the user's like of that review and keeps every other like |
| ReviewSection.ReviewPanel.constructor | src/components/Product/ReviewSection.tsx:20-27 | no thread open, no comments cached, no drafts |
| ReviewSection.ReviewPanel.ToggleComments | src/components/Product/ReviewSection.tsx:142-151 | toggles the thread and loads its comments on first opening only |
| ReviewSection.ReviewPanel.HandleLikeReview | src/components/Product/ReviewSection.tsx:50-93 | signed out only prompts; signed in, an accepted write flips the user's like of that review and touches no other like, a refused one changes no like; the refresh follows either way |
| ReviewSection.ReviewPanel.SetDraft | src/components/Product/ReviewSection.tsx:231-235 | stores the draft for that review |
| ReviewSection.ReviewPanel.HandleAddComment | src/components/Product/ReviewSection.tsx:115-140 | posts the trimmed draft, clears it and reloads the thread; a blank draft or signed-out user does nothing |
| ReviewSection.ReviewPanel.PostComment | src/components/Product/ReviewSection.tsx:127-136 | appends the comment when the insert goes through, clears that review's draft either way and reloads its comments |
| ReviewSection.PostedCommentIsTrimmed | src/components/Product/ReviewSection.tsx:116-132 | a posted comment neither starts nor ends with whitespace |
| ReviewForm.LitStars | src/components/Product/ReviewForm.tsx:73 | stars up to the hovered value light, or up to the rating when nothing is hovered |
| ReviewForm.ReviewDialog.constructor | src/components/Product/ReviewForm.tsx:14-18 | no rating, no hover, empty title and comment |
| ReviewForm.ReviewDialog.ClickStar | src/components/Product/ReviewForm.tsx:66 | the rating becomes that star's value, 1 to 5 |
| ReviewForm.ReviewDialog.EnterStar | src/components/Product/ReviewForm.tsx:67 | hovering shows that star's value |
| ReviewForm.ReviewDialog.LeaveStar | src/components/Product/ReviewForm.tsx:68 | leaving clears the hover |
| ReviewForm.ReviewDialog.HandleSubmit | src/components/Product/ReviewForm.tsx:20-57 | needs a user and a rating; a stored review has a rating from 1 to 5, notifies and closes; a failure alerts |
| Header.BadgeText | src/components/Layout/Header.tsx:177-179 | no badge at 0, "99+" above 99, the count otherwise |
| Header.BadgeCountsExactly | src/components/Layout/Header.tsx:179 | a badge up to 99 is at most two digits and reads back as the count |
| Header.HeaderState.constructor | src/components/Layout/Header.tsx:12-14 | menus closed, query empty |
| Header.HeaderState.SetQuery | src/components/Layout/Header.tsx:86 | stores the typed query |
| Header.HeaderState.HandleSearch | src/components/Layout/Header.tsx:25-31 | a non-blank query searches its trimmed text and clears the box; a blank one does nothing |
| Header.HeaderState.ToggleUserMenu | src/components/Layout/Header.tsx:112 | flips the user menu only |
| Header.HeaderState.FollowUserMenuLink | src/components/Layout/Header.tsx:131 | a menu link closes the user menu |
| Header.HeaderState.ToggleMenu | src/components/Layout/Header.tsx:188 | flips the mobile menu only |
| Header.SearchedQueryIsTrimmed | src/components/Layout/Header.tsx:27-28 | a searched query neither starts nor ends with whitespace |
| Help.FaqToggled | src/pages/HelpPage.tsx:63-65 | an open question closes; any other opens alone |
| Help.FaqToggleTwice | src/pages/HelpPage.tsx:63-65 | toggling the same question twice closes it; toggling another opens that one |
| Help.FaqAccordion.constructor | src/pages/HelpPage.tsx:7 | no question open |
| Help.FaqAccordion.ToggleFaq | src/pages/HelpPage.tsx:63-65 | flips that question and leaves every other closed |
| OrderSuccess.OrderNumber | src/pages/OrderSuccessPage.tsx:105 | "#" and the first eight characters of the id, each lower-case ASCII letter replaced by its capital and every other character kept |
| OrderSuccess.SharedPrefixSameNumber | src/pages/OrderSuccessPage.tsx:105 | ids sharing their first eight characters show the same number |
| OrderSuccess.NumberIgnoresCase | src/pages/OrderSuccessPage.tsx:105 | upper-casing the id first changes nothing |
| OrderSuccess.PaymentMethodLabel | src/pages/OrderSuccessPage.tsx:113-115 | "Cash on Delivery" exactly for "cod", else "Online Payment" |
| OrderSuccess.PaymentStatusLabel | src/pages/OrderSuccessPage.tsx:119-125 | "Paid" exactly for "completed", else "Pending" |
| OrderSuccess.PageFor | src/pages/OrderSuccessPage.tsx:21-86 | loading without an order id, not found when the fetch gives nothing, otherwise the order's details |
| Text.Trim | src/components/Layout/Header.tsx:27 | the input with only its leading and trailing whitespace removed: a slice with whitespace on both sides, empty exactly for all-whitespace input and otherwise starting and ending with non-whitespace |
| Text.TrimBlank | src/components/Layout/Header.tsx:27 | trimming gives the empty text exactly for all-whitespace input |
| Text.TrimIsSlice | src/components/Layout/Header.tsx:27 | the trimmed text is a slice of the input with only whitespace before and after it |
| Text.Utf16Length | src/components/Auth/SignUpForm.tsx:31 | a string's JavaScript length is at least its number of code points |
| Text.UpperChar | src/pages/OrderSuccessPage.tsx:105 | a lower-case ASCII letter becomes its capital, 32 code points lower; any other character is kept |
| Text.ToUpper | src/pages/OrderSuccessPage.tsx:105 | same length; each lower-case ASCII letter becomes its capital and every other character is kept |
| Text.NatToStringRoundTrip | src/components/Layout/Header.tsx:179 | the decimal text of a count reads back as that count |

## Left out

- The row store's client is not part of this model: query building, sessions and the network. Reads return the table as it stands; a write's success or its error message is an argument.
- Reads are assumed to succeed. The source does not check a read's error, so a refused read behaves as an empty result. The model leaves out three consequences of that:
  - src/contexts/CartContext.tsx:72-88: a refused `carts` select falls through to the insert and creates a second cart for the user.
  - src/contexts/CartContext.tsx:140-147 and 163-183: a refused select for the variant's line falls through to the insert and adds a duplicate line, which breaks the one-line-per-variant invariant that CartTable.AddKeepsTableOk keeps.
  - src/contexts/CartContext.tsx:108-115: a refused line fetch sets the shown list to `items || []`, which empties it.
- AddToCart: the model's price snapshot is a whole number. A product view whose variant has no pricing row sends an add with no price, and the source then inserts `price_at_time` as undefined (src/contexts/CartContext.tsx:170). That priceless add is not modelled.
- HTML constraint validation is not modelled: the browser's checks run before the handlers, and the model's handlers take whatever the fields hold. The constraints are `required` on the review title and comment (src/components/Product/ReviewForm.tsx:119, 135), `minLength={6}` on the new and confirm password fields (src/components/Account/AccountSettings.tsx:246-247, 263-264) and `maxLength={6}` on the PIN code (src/components/Account/AddressForm.tsx:213). So ReviewForm.ReviewDialog.HandleSubmit inserts an empty title or comment, which the browser would block.
- Catalog.CountReviews models only the mapping from a review's `review_likes` and `review_comments` to its counts. The product query nests those relations under `review_stats`, not under `reviews` (src/hooks/useProducts.ts:99-108), so on a real fetch both counts read as 0 (131-132).
- `.single()` with two or more matching rows is left out. The model's invariants keep one cart per owner and one profile per auth user.
- The payment gateway's script, its modal and its success callback are left out. The model stops at opening the gateway with the order and the amount.
- Real time, locale formatting and floating point are left out. Times are whole milliseconds passed in, a date beyond a week is an opaque `LocaleDate`, prices are whole rupees, and averages are exact reals rather than rounded floats.
- Upper-casing covers ASCII letters only, and URL encoding of the search query is left out.
- Interleavings of asynchronous handlers are not modelled: each handler runs to completion before the next starts.
- Row ids and `created_at` stamps come from one counter, so creation order is id order; an order's id is its position in the table.
- The profile update of the settings page lives in the authentication context, which is not part of this model.
- Navigation, alerts, `confirm` and the share sheet are left out; only what they are shown or asked is modelled.
- The wishlist status check of the detail page is a constructor argument.
- The account lists pass the product id where the cart expects the ASIN. The model keeps this as written.
- The address book's insert and update model the code as written. That code can leave two defaults (see Findings).
- The static pages, the home and search pages and the authentication context are outside the modelled core.
- ReviewSection.ToggleTwiceFromExpanded: closing then opening a thread restores the same set of open threads but not their order, because the reopened thread moves to the end.

## Findings

| source | as written | input that shows it | evidently intended | confidence | as-written member | corrected member |
|---|---|---|---|---|---|---|
| src/components/Account/AddressManagement.tsx:65-102 | saving an address with "set as default" writes `is_default: true` without clearing the user's other default, although setting a default from the list does clear it first (124-149) | a user with a default address adds or edits another address with the box ticked | the user keeps at most one default address | medium, not executed | OwnedRows.InsertDefaultBreaksOneDefault | OwnedRows.InsertKeepsOneDefault |
| src/components/Account/AddressManagement.tsx:85-102 | editing an address and ticking "set as default" sets the flag on that row only | a user whose address 1 is default edits address 2 with the box ticked | the edited address becomes the only default | medium, not executed | OwnedRows.UpdateDefaultBreaksOneDefault | OwnedRows.UpdateKeepsOneDefault |
