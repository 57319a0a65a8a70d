# Bookstore storefront core, modelled in Dafny

This project models the logic of a single-page second-hand bookstore:

- **Cart store** (`cart_slice.dfy`). The cart is an ordered list of lines with two stored totals. The three reducers recompute both totals every time. `CartStore` updates its fields in place. Beside it are the pure functions the reducers compute (`AddItem`, `RemoveItems`), and lemmas that the lines stay one per book id with positive quantities.
- **User store** (`user_slice.dfy`). The session record: set, clear, and the loading flag.
- **Checkout** (`checkout.dfy`). The three-step flow: cart review, shipping, payment.
  - The two field-keyed validators, including the `\S+@\S+\.\S+` email test.
  - The order placed by the delayed callback: a six-digit order number and the card number masked down to its last four characters.
- **Sell form** (`sell_books.dfy`). The error map `validateForm` builds, the change handler that clears a field's error, and the cover-image type check.
- **Browse pipeline** (`browse_books.dfy`). The search and genre filters, then an in-place sort of a copy by price or rating, and the Reset Filters button.
- **Icon lookup** (`icon_utils.dfy`). The name as given, then its kebab-case to PascalCase conversion, then the theme emoji, then the fallback icon.
- **Book queries** (`book_service.dfy`). The query objects for the paged catalogue and for the featured books.
- **Order records** (`order_service.dfy`). The four record batches `createOrder` writes.

Shared helpers:

- `text.dfy` models the JavaScript string built-ins the code calls: `trim`, `\s`, `toLowerCase`/`toUpperCase`, `includes`, `slice(-n)`, and number-to-string.
- `seqs.dfy` models `Array.prototype.filter`.

How the model represents the source's values:

- Prices are integer cents and ratings integer tenths.
- The current time, `Math.random`, the file reader's result and JavaScript's number coercion are parameters.

## Model

| member | source | states |
|---|---|---|
| CartSlice.CartStore.constructor | src/store/cartSlice.js:3-7 | The store starts with no lines and both totals at zero, satisfying the store invariant. |
| CartSlice.FindItem | src/store/cartSlice.js:14 | The index `find` lands on is the first line with the id, and -1 exactly when no line has it. |
| CartSlice.AddItem | src/store/cartSlice.js:14-19 | After adding, the book's id is in the cart. The line count is unchanged when the id was present and one more otherwise. |
| CartSlice.AddItemExisting | src/store/cartSlice.js:14-16 | Adding a book already present bumps exactly the first matching line's quantity by one and changes nothing else. |
| CartSlice.AddItemNew | src/store/cartSlice.js:17-19 | Adding a book not present appends one line with quantity 1 and keeps the other lines. |
| CartSlice.AddItemTotalItems | src/store/cartSlice.js:13-20 | Whatever the cart, adding a book raises the item total by exactly one. |
| CartSlice.AddItemTotalAmount | src/store/cartSlice.js:13-21 | Adding raises the amount by the matching line's price when the id is present, and by the book's price otherwise. |
| CartSlice.AddItemWellFormed | src/store/cartSlice.js:13-19 | Adding keeps one line per id and every quantity at least 1. |
| CartSlice.CartStore.AddToCart | src/store/cartSlice.js:13-22 | The new lines are `AddItem` of the old ones. Totals are recomputed, the item total rises by one, and the line count is unchanged for a present id (one more line otherwise). The invariant is kept. |
| CartSlice.RemoveItems | src/store/cartSlice.js:24 | The kept lines are lines of the old cart, none with the removed id, and there are no more of them than before. |
| CartSlice.RemoveItemsDropsId | src/store/cartSlice.js:24 | After removal no line has the removed id. |
| CartSlice.RemoveItemsAbsent | src/store/cartSlice.js:24 | Removing an id the cart lacks leaves the lines unchanged. |
| CartSlice.RemoveItemsSublist | src/store/cartSlice.js:24 | Every line with another id survives, and the survivors keep their order (a sub-list). |
| CartSlice.RemoveItemsWellFormed | src/store/cartSlice.js:24 | Removal keeps one line per id and positive quantities. |
| CartSlice.CartStore.RemoveFromCart | src/store/cartSlice.js:23-27 | The new lines are the filtered old ones with totals recomputed. Removing an absent id changes neither lines nor totals. The invariant is kept. |
| CartSlice.CartStore.ClearCart | src/store/cartSlice.js:28-32 | Empties the lines and zeroes both totals. |
| CartSlice.RunWellFormed | src/store/cartSlice.js:12-32 | Any sequence of the three reducers from a well-formed cart yields a well-formed cart. |
| CartSlice.InitialRunWellFormed | src/store/cartSlice.js:3-32 | From the initial empty cart every reachable cart is well formed. |
| CartSlice.SumQuantitiesAtLeastLines | src/store/cartSlice.js:20 | With positive quantities, the item total is at least the number of lines. |
| CartSlice.CartStore.SelectCartItems | src/store/cartSlice.js:37 | Returns the stored lines, whose ids are distinct. |
| CartSlice.CartStore.SelectCartTotal | src/store/cartSlice.js:38 | Returns the number of copies (the sum of quantities), which is at least the number of lines. It is not the money amount. |
| UserSlice.UserStore.constructor | src/store/userSlice.js:4-9 | The record starts as `initialState`. |
| UserSlice.UserStore.SetUser | src/store/userSlice.js:15-21 | Stores the user, marks the session authenticated, not loading and without error. |
| UserSlice.UserStore.ClearUser | src/store/userSlice.js:22-27 | Returns the record to `initialState` from any state. |
| UserSlice.UserStore.SetLoading | src/store/userSlice.js:28-30 | Sets `loading` to the payload and leaves the other three fields unchanged. |
| Checkout.SetShippingField | src/pages/Checkout.jsx:67-73 | The named shipping field takes the value and every other field keeps its value. |
| Checkout.CheckoutFlow.HandleShippingChange | src/pages/Checkout.jsx:67-73 | The shipping form becomes `SetShippingField` of the old one. |
| Checkout.SetPaymentField | src/pages/Checkout.jsx:75-81 | The named payment field takes the value and every other field keeps its value. |
| Checkout.CheckoutFlow.HandlePaymentChange | src/pages/Checkout.jsx:75-81 | The payment form becomes `SetPaymentField` of the old one. |
| Checkout.EmailTestIsPattern | src/pages/Checkout.jsx:47 | The executable email test holds exactly when `\S+@\S+\.\S+` matches somewhere in the string (both directions). |
| Checkout.AddressErrors | src/pages/Checkout.jsx:39-44 | Each of the five address fields has an entry exactly when it is empty, with that field's message. No other key appears. |
| Checkout.ShippingErrors | src/pages/Checkout.jsx:38-50 | The shipping error map: each address field has an entry exactly when it is empty. Email has one exactly when it is empty ("required") or does not match the pattern ("invalid"). Each entry carries its field's message, and phone never gets one. |
| Checkout.ValidateAddressFields | src/pages/Checkout.jsx:39-44 | The five checks applied one at a time build exactly `AddressErrors` of the form. |
| Checkout.ShippingErrorsEmptyIff | src/pages/Checkout.jsx:52 | The shipping map has no keys exactly when all five fields and the email are non-empty and the email matches the pattern. |
| Checkout.ValidateShippingForm | src/pages/Checkout.jsx:38-53 | The map built check by check is `ShippingErrors` of the form. The result is valid exactly when that map is empty, i.e. exactly when the five fields and the email are non-empty and the email matches the pattern. |
| Checkout.PaymentErrors | src/pages/Checkout.jsx:56-60 | The payment error map: each of the four fields has an entry exactly when it is empty, with its message. No other key appears. |
| Checkout.PaymentErrorsEmptyIff | src/pages/Checkout.jsx:63 | The payment map has no keys exactly when all four payment fields are non-empty. |
| Checkout.ValidatePaymentForm | src/pages/Checkout.jsx:55-64 | The map built check by check is `PaymentErrors` of the form. The result is valid exactly when that map is empty, i.e. exactly when the four payment fields are non-empty. |
| Checkout.CheckoutFlow.NextStep | src/pages/Checkout.jsx:84-102 | From step 1, an empty cart redirects and stays put, otherwise the flow moves to step 2. At step 2 the stored errors become `ShippingErrors` of the form, and the flow advances exactly when that map is empty. At step 3 the stored errors become `PaymentErrors` of the form. At step 3 it schedules the order (with a snapshot of cart and forms) exactly when payment validates, and otherwise stays with errors. The forms never change and the loading/pending invariant is kept. |
| Checkout.CheckoutFlow.constructor | src/pages/Checkout.jsx:9-36 | The page starts at step 1, not loading, with no errors, empty shipping and payment forms, and no order pending. |
| Checkout.CheckoutFlow.PrevStep | src/pages/Checkout.jsx:104-106 | From step 2 or 3 (the steps with a Back button), goes back one step. |
| Checkout.CheckoutFlow.PlaceOrder | src/pages/Checkout.jsx:109-113 | Sets `loading` and records the cart lines, amount and both forms as they are now, for the timer callback. |
| Checkout.CheckoutFlow.TakePending | src/pages/Checkout.jsx:113-114 | The callback starts by clearing `loading`. The scheduled snapshot is taken and nothing stays pending. |
| Checkout.OrderNumberFromRandom | src/pages/Checkout.jsx:117 | For any random fraction in [0, 1) the order number is between 100000 and 999999 and prints as six digits. |
| Text.Decimal | src/pages/Checkout.jsx:117 | A number renders as a non-empty string of decimal digits without a leading zero. |
| Text.SixDigits | src/pages/Checkout.jsx:117 | Every number from 100000 to 999999 renders as exactly six decimal digits. |
| Text.SliceLast | src/pages/Checkout.jsx:128 | `slice(-n)` gives the last `n` characters, or the whole string when it is shorter, so the string is what precedes it followed by it. |
| Checkout.MaskCardNumber | src/pages/Checkout.jsx:128 | The stored card number is the fixed mask followed by the last (at most) four characters of the entered number. |
| Checkout.BuildOrder | src/pages/Checkout.jsx:120-131 | The order carries the given number and date, the snapshot's lines, amount and shipping, and the masked card number. Every other payment field is copied unchanged. |
| Checkout.CheckoutFlow.OrderTimerFires | src/pages/Checkout.jsx:113-138 | The callback returns the order built from the snapshot with a six-digit number, empties the cart (both totals zero, cart invariant kept), and leaves nothing loading or pending. |
| SellBooks.HandleInputChange | src/pages/SellBooks.jsx:53-61 | The edited field takes the value and every other form field is unchanged. The field's error entry is reset to null exactly when it held a message, and the error map is otherwise untouched. |
| SellBooks.HandleImageUpload | src/pages/SellBooks.jsx:63-89 | No file changes nothing. A type not containing "image" sets the cover error and leaves the form alone. An image stores the file and its preview and nulls the cover error. |
| Text.Trim | src/pages/SellBooks.jsx:94-96 | `trim()` gives a slice of the input with only white space before and after it, and the slice neither starts nor ends with white space. |
| SellBooks.IsBlank | src/pages/SellBooks.jsx:94-96 | `!value.trim()` holds exactly when the value is empty or only white space. |
| Text.TrimEmptyIff | src/pages/SellBooks.jsx:94-96 | `trim()` yields the empty string exactly when every character is white space. |
| SellBooks.ValidateRequiredFields | src/pages/SellBooks.jsx:94-97 | Title, author and description get their message exactly when blank after trimming, and genre exactly when empty. No other key is set. |
| SellBooks.PriceError | src/pages/SellBooks.jsx:99-103 | A price error exists exactly when the price is empty, coerces to NaN, or coerces to a number at most 0. The message is "required" for the empty string and "valid price" otherwise. |
| SellBooks.ValidateForm | src/pages/SellBooks.jsx:91-109 | The form is valid exactly when the error map is empty. Each key is present exactly when its check fails, with that check's message: title, author and description blank after trim, genre empty, price missing or not above 0, no cover. `condition` is never checked. |
| BrowseBooks.FilterBooks | src/pages/BrowseBooks.jsx:100-111 | Every book kept is a catalogue book that passes both filters, no book is kept more often than the catalogue holds it, and a book that passes is kept as often as the catalogue holds it. |
| BrowseBooks.FilterBooksSublist | src/pages/BrowseBooks.jsx:100-111 | The filtered list is a sub-list of the catalogue: nothing added, nothing reordered. |
| Text.Lower | src/pages/BrowseBooks.jsx:103-104 | `toLowerCase` keeps the length and maps every character through the (ASCII) lower-case mapping. |
| Text.Includes | src/pages/BrowseBooks.jsx:103-104 | `includes` holds exactly when the needle occurs at some position. The empty needle is in every string, and a needle longer than the haystack is in none. |
| Seqs.Filter | src/pages/BrowseBooks.jsx:102-110 | `filter` keeps exactly the elements that satisfy the test: every kept element is from the input and passes, every input element that passes is kept, and the result is no longer than the input. As multisets the result is contained in the input, and an element that passes is kept with its full multiplicity. |
| BrowseBooks.FilterBooksMembers | src/pages/BrowseBooks.jsx:100-111 | A catalogue book is kept exactly when it matches the case-insensitive title-or-author search (if any) and the genre (unless "all"). |
| BrowseBooks.ParseSort | src/pages/BrowseBooks.jsx:114-126 | The `switch`: "price-low", "price-high" and "rating" select their sorts exactly, and every other value is the unsorted (featured) case. |
| BrowseBooks.SortInPlace | src/pages/BrowseBooks.jsx:113-127 | After the in-place sort the array is ordered by the mode's key and is a permutation of its former contents. |
| BrowseBooks.Insert | src/pages/BrowseBooks.jsx:113-127 | One insertion pass extends the sorted prefix by one element and permutes the array. |
| BrowseBooks.SortedCopy | src/pages/BrowseBooks.jsx:98-127 | The copy is a permutation of the input, sorted by the mode's key. For "featured" it is the input unchanged. |
| BrowseBooks.ApplyFilters | src/pages/BrowseBooks.jsx:97-130 | The shown books are a permutation of the filtered list, every one in the catalogue and passing both filters. They are ordered by ascending price, descending price or descending rating per the sort value. Any other value keeps the filtered order, and with no query, "all" genres and "featured" the whole catalogue is shown as is. |
| BrowseBooks.ResetFilters | src/pages/BrowseBooks.jsx:214-218 | The controls become exactly empty query, "all" genres and "featured". Under those the filters keep every catalogue and the sort is the unsorted case. |
| IconUtils.Split | src/utils/iconUtils.jsx:9 | `split('-')` gives at least one piece and no piece contains the separator. |
| IconUtils.SplitJoin | src/utils/iconUtils.jsx:9 | Joining the pieces with the separator gives the string back. |
| IconUtils.SplitCount | src/utils/iconUtils.jsx:9 | There is one more piece than separators. |
| IconUtils.Capitalize | src/utils/iconUtils.jsx:9 | `charAt(0).toUpperCase() + slice(1)` keeps the length, upper-cases the first character and keeps the rest. |
| IconUtils.ToPascalCase | src/utils/iconUtils.jsx:9 | The split-capitalize-join conversion equals an independent one-pass definition: drop every hyphen, upper-case the first letter and each letter after a hyphen. So the result has no hyphen and is shorter by the number of hyphens. |
| IconUtils.ToPascalCaseIdempotent | src/utils/iconUtils.jsx:9 | Converting a converted name changes nothing. |
| IconUtils.GetIcon | src/utils/iconUtils.jsx:4-25 | A name the library exports wins. Otherwise its PascalCase conversion if exported. Otherwise exactly "sun" and "moon" give the emoji. Any other unresolved name gives `Smile`. The result is always an exported icon, an emoji or `Smile`. |
| IconUtils.KebabResolvesLikePascal | src/utils/iconUtils.jsx:6-10 | A kebab-case name whose conversion is exported resolves to the same icon as the converted name. |
| IconUtils.ThemeIconsShadowed | src/utils/iconUtils.jsx:9-21 | When the library exports `Sun` (or `Moon`) but not the lower-case name, "sun" (or "moon") resolves to that library icon, never to the emoji. |
| BookService.SearchGroup | src/services/bookService.js:57-79 | The search group is an OR of a title-contains and an author-contains condition on the query. |
| BookService.SortOrder | src/services/bookService.js:86-99 | The three sort values map to price ascending, price descending and rating descending. Every other value maps to CreatedOn descending. |
| BookService.BooksQuery | src/services/bookService.js:6-100 | The query selects the fixed fields with limit `pageSize` and offset `(page - 1) * pageSize`. It has a genre clause exactly for a truthy genre other than "all", a search group exactly for a truthy query, and an order key exactly for a truthy sort value. |
| BookService.GetBooksParams | src/services/bookService.js:6-100 | Building `params` property by property, with the two pushes onto fresh arrays, yields exactly `BooksQuery`. |
| BookService.DefaultQuery | src/services/bookService.js:6-37 | With no arguments the query asks for the first twenty books, unfiltered and unsorted. |
| BookService.PagesPartitionRecords | src/services/bookService.js:34-37 | With a positive page size, record k lies in the window of exactly one page, page `k / pageSize + 1`. |
| BookService.SortOrderAgreesWithPage | src/services/bookService.js:86-99 | For the three recognised sort values ("price-low", "price-high", "rating") the server-side key and direction are those of the browse page's comparator, and every other value is the page's unsorted case and the server's `CreatedOn` descending. The browse page itself does not call `getBooks`. |
| BookService.FeaturedBooksParams | src/services/bookService.js:128-166 | The featured query selects the same fields unfiltered, ordered by rating descending, first `limit` records. |
| BookService.FeaturedIsFirstPageByRating | src/services/bookService.js:128-166 | The featured query equals the catalogue query for page 1 of size `limit` sorted by "rating". |
| OrderService.OrderRecordFor | src/services/orderService.js:15-23 | The order record is named after the order number, copies number, total and date, and is "pending". |
| OrderService.OrderNameInjective | src/services/orderService.js:17 | Different order numbers give different record names. |
| Text.DecimalRoundTrip | src/services/orderService.js:17 | Reading back the rendered digits of a number gives the number. |
| OrderService.PhoneOrEmpty | src/services/orderService.js:38 | `phone \|\| ""` is the phone when present and the empty string when missing. |
| OrderService.ShippingRecordFor | src/services/orderService.js:29-41 | The shipping record copies the six address and contact fields and the phone (or ""), is named after the order and links to its id. |
| OrderService.PaymentRecordFor | src/services/orderService.js:46-54 | The payment record keeps holder, expiry date and the last (at most) four characters of the card number, and links to the order. |
| OrderService.PaymentRecordForgetsSecrets | src/services/orderService.js:46-54 | The stored payment record does not depend on the cvv, nor on any card digits before the last four. |
| OrderService.Last4MatchesMaskedCard | src/services/orderService.js:50 | The stored last four characters are exactly what follows the `xxxx-xxxx-xxxx-` mask in the checkout's order object (src/pages/Checkout.jsx line 128). |
| OrderService.OrderItemRecords | src/services/orderService.js:59-65 | One item record per cart line, in order, with that line's quantity, price and book id, linked to the order. |
| OrderService.ItemsMatchCartTotals | src/services/orderService.js:59-65 | The item records' amount and quantity sums equal the cart's `totalAmount` and `totalItems` sums. |
| OrderService.CreateOrder | src/services/orderService.js:6-80 | The writes are exactly the order record, the shipping record, the payment record and one item record per cart line, as their builders produce them, all linked to the returned order id. The result is success with that id and the order number. |

## Left out

- The records API client, the SDK, `fetchRecords`, `createRecord` and their failures are left out. `getBooks`/`getFeaturedBooks` are modelled up to the query they send, and `createOrder` up to the records it writes. The id the first write returns is a parameter, and the catch-and-rethrow path is not modelled.
- `getBookById` is left out: it only forwards an id to the API. `getOrderById` is left out too: it issues three queries (the order, its items with their books expanded, and its shipping record) and merges the responses, and all of that is API traffic with no logic of its own beyond the query shapes.
- Toasts, `navigate`, `sessionStorage`, `JSON.stringify`, logging and all markup are left out.
- The two-second `setTimeout` is not scheduled by the model. `PlaceOrder` records what the callback captures, and the environment calls `OrderTimerFires` later.
- `Math.random()` is the `random` parameter and `new Date().toISOString()` is the `date` parameter.
- The `FileReader` result is the `dataUrl` parameter. `HandleImageUpload` applies the asynchronous preview update and the synchronous error reset together, so the interleaving of the two state updates is not modelled.
- JavaScript's number coercion of the price string is the `toNumber` parameter, and floating-point prices and ratings are integer cents and tenths. `Math.floor` of the order number is taken on exact reals, so floating-point rounding is not modelled.
- Case mapping (`toLowerCase`, `toUpperCase`) is ASCII only. Other characters are unchanged.
- Strings are sequences of Unicode code points, while JavaScript's `slice`, `charAt` and `length` count UTF-16 code units. Characters outside the Basic Multilingual Plane are therefore not modelled: for such input `Text.SliceLast` (so `Checkout.MaskCardNumber` and `OrderService.PaymentRecordFor`) and `IconUtils.Capitalize` can differ from the source. For example, `"1234😀".slice(-4)` is `"34😀"` in JavaScript but four code points in the model.
- BrowseBooks.SortInPlace: proved sorted and a permutation. Stability (books with equal keys keep their filtered order) is not proved, although the insertion sort is stable.
- The mock catalogue, its loading, and the React state plumbing of `useEffect` are not modelled beyond the pipeline's inputs and output.
- `Checkout.jsx` reads the cart amount through `selectCartAmount`, which `src/store/cartSlice.js` does not export. The model reads the store's `totalAmount` instead, which is the amount that selector would evidently return.
- The deep copy in `setUser` is implicit: Dafny values are already copies.
- While an order is pending, the Place Order button is disabled, and `NextStep`'s precondition reflects that rather than modelling the button.
- Checkout.BuildOrder: the spread keeps the cvv in the order object, and the model keeps it too. Only the card number is masked.
- `src/utils/iconUtils.js`, a duplicate of the JSX module, is not part of this model, and neither is rendering the icon components.
- OrderService.OrderRecordFor: the order number is taken to be a non-negative integer, as the checkout's six-digit numbers are. `createOrder` interpolates any value into `` `Order ${orderNumber}` ``, and other values are not modelled.
- The `filters` object is modelled only through its `genre`, `searchQuery` and `sort` properties, the only ones the code reads. JavaScript truthiness of non-string values is not modelled.
