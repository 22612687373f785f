# ZapStock in Dafny

ZapStock is a single-page app for a reseller who sells boxes of goods
("lots") through WhatsApp. It keeps three collections: customers, lots and
orders. These are changed by six store actions in `App.tsx`. Around the
store sit four screens, and this project models their logic:

- the order screen: the smart fill of a draft order from an extracted
  WhatsApp message, the submit guard and reset, and the tab filter with its
  newest-first sort;
- the overview: the pending-order counter, the units in stock, the
  low-stock list and the five most recent orders;
- the customer search;
- the inventory broadcast, which is opened in WhatsApp or copied to the
  clipboard.

The project has eight modules:

- `Seqs`: generic sequence tools. `Filter` is `Array.filter`, `Find` and
  `FindIndex` are `Array.find`, and `ConcatMap` is a string or sequence
  built piece by piece.
- `Text`: the JavaScript string operations the app uses:
  - `toLowerCase`, `includes` and `trim`;
  - `replace(/\D/g, '')`;
  - number-to-text interpolation, and `toFixed(2)` on integer cents.
- `Domain`: the records of `types.ts`.
- `App`: the store, a class
  `Store` with three `seq` fields. Every action is a method whose contract
  gives the whole new state in terms of pure functions (`Archive`,
  `Decrement`, `SetStatus`, `TogglePaid`, `StockCheck`). The properties of
  the actions are lemmas about those functions.
- `Orders`: the new-order form, a class `OrderForm` whose fields are the
  form's state slots.
  - Its smart-fill method is proved against the function `SmartPaste`. The
    selection rules are lemmas about that function.
  - The method goes step by step and creates a customer through the store,
    as the component does.
- `Dashboard`, `Customers`: pure views.
- `Inventory`: the two message builders. Each is a method with a loop that
  grows the message, proved equal to a specification function. The content
  of the messages is then proved about that function.

Modelling choices:

- **Ids and times.** Fresh ids and the current time are parameters, since
  the app draws them from `Math.random` and `new Date()`. Each action that
  is given a fresh id requires it to be unused. `Store.Valid()` is the uniqueness of
  ids in each collection, and every action keeps it.
- **Timestamps.** The app stores ISO strings and compares them through
  `new Date(...)`. The model keeps them as integers.
- **Prices.** A price is an optional whole number of cents, so `25.00` in
  the seed data is `2500`. `p.price.toFixed(2)` becomes `FormatCents`, which
  renders cents exactly, and `ParseCents` reads them back.
- **Truthiness.** JavaScript truthiness is written out:
  - a string field is truthy when it is present and non-empty;
  - a quantity is truthy when it is present and not 0.
- **Lowercasing.** `toLowerCase` lowers ASCII and Latin-1 capitals.
- **Trimming.** `trim` strips the ECMAScript white-space and line-terminator
  characters.
- **The extraction service.** Its reply is an input (`Reply`). It is a
  result, `null`, or an exception.
- **Stock bounds.** `addOrder` never takes a lot that has zero units or
  more below zero.
  - `addProduct` does not check the total. A negative total, which only the
    inventory form's `min="1"` keeps out (`components/Inventory.tsx:175`), creates a lot with negative
    units (`App.Store.AddProduct` keeps the bounds only for a non-negative
    total).
  - The bound `remainingQuantity <= totalQuantity` holds only for positive
    quantities.
  - Only the order form's `min="1"` enforces that (`components/Orders.tsx:342`).
  - `App.NegativeQuantityRaisesStock` shows a negative quantity raising
    stock above the total.
- **Submit.** The form is reset after it forwards an order, even when the
  store then refuses the order.
- **Seed scenarios.** `App.SeedOrderAccepted` and `App.SeedOrderRefused`
  run the store on the seed data. Ordering 5 units of the lot with 85 left
  leaves 80 and puts the new order first. Ordering 200 is refused, reports
  the 85 left and changes nothing.

The code is followed where it differs from the wording of the documentation:

- `toggleOrderPayment` flips the paid flag. Toggling twice restores the
  order, and toggling once changes it, so the action is not idempotent.
- The "Pendentes" counter of the overview counts only orders that are
  exactly pending. The "Pendentes" tab of the order screen also lists orders
  with a label.

## Model

| member | source | states |
|---|---|---|
| Domain.ActiveProducts | components/Dashboard.tsx:12 | every lot kept is active and comes from the input; every active lot is kept |
| Domain.ActiveProductsOrder | components/Inventory.tsx:23 | the active lots keep their relative order; with every lot active the filter is the identity |
| Text.Lower | components/Customers.tsx:16 | lowering keeps the length and lowers each capital by 32 code points, leaving every other character as it is |
| Text.LowerIdempotent | components/Customers.tsx:16 | lowering twice is lowering once |
| Text.Includes | components/Customers.tsx:16-17 | `includes` holds exactly when the term occurs at some position |
| Text.IncludesEmpty | components/Customers.tsx:16-17 | every string includes the empty string |
| Text.Trim | components/Orders.tsx:40 | `trim()`: the result is no longer than the input and neither starts nor ends with a trimmable character; when it is empty is stated by `TrimEmptyIff` |
| Text.TrimEmptyIff | components/Orders.tsx:40 | a message trims to empty exactly when every character is white space or a line terminator |
| Text.CleanPhone | components/Orders.tsx:111 | the cleaned number holds only digits and is no longer than the input |
| Text.CleanPhoneKeepsDigits | components/Customers.tsx:28 | cleaning keeps each digit as many times as it occurs, drops every other character, and keeps the digits' order |
| Text.CleanPhoneIdempotent | components/Customers.tsx:28 | cleaning a cleaned number changes nothing |
| Text.NatToStringRoundTrip | components/Inventory.tsx:34 | the decimal text of a count reads back as that count |
| Text.IntToString | components/Dashboard.tsx:81 | the interpolated number is a digit string, or a minus sign and one, whose value is the number |
| Text.IntToStringInjective | components/Dashboard.tsx:81 | different numbers are shown as different texts |
| Text.FormatCents | components/Inventory.tsx:35 | the amount has a decimal point with exactly two digits after it |
| Text.FormatCentsRoundTrip | components/Inventory.tsx:35 | the two-decimal amount consists of digits around the point and reads back as the price in cents |
| App.FindProduct | App.tsx:71 | finds nothing exactly when no lot has the id; otherwise finds the first lot holding it |
| App.FindProductUnique | App.tsx:71 | with unique ids the lot found is the one holding the id |
| App.NewProduct | App.tsx:45-51 | the new lot carries the caller's fields and the fresh id, has all of its units on hand, and is active |
| App.Archive | App.tsx:55-57 | lots holding the id become archived; every other field and every other lot is unchanged |
| App.ArchiveUnknownIsNoop | App.tsx:55-57 | archiving an id no lot holds changes nothing |
| App.ArchiveIdempotent | App.tsx:55-57 | archiving twice equals archiving once |
| App.ArchiveKeepsStock | App.tsx:56 | archiving keeps the stock bounds and the uniqueness of ids exactly as they were |
| App.ArchiveKeepsLookup | App.tsx:55-71 | an archived lot is still found by its id and differs only in status |
| App.Decrement | App.tsx:87-91 | lots holding the id lose exactly the ordered quantity; every other field and every other lot is unchanged |
| App.StockCheck | App.tsx:71-76 | rejects as unknown exactly when no lot has the id; passes only when a lot with the id holds enough units; a shortage reports that lot's units left |
| App.StockCheckExact | App.tsx:71-76 | with unique ids the check passes exactly when the lot holds at least the quantity, and otherwise reports its units left |
| App.PlacementKeepsStock | App.tsx:73-91 | an accepted order keeps every lot at zero units or more; with a non-negative quantity it keeps every lot within its total |
| App.NegativeQuantityRaisesStock | App.tsx:73-91 | the store accepts a negative quantity, which lifts a lot above its total |
| App.NewOrder | App.tsx:78-84 | the new order carries the caller's fields, the fresh id and the date; it is pending and unpaid |
| App.SetStatus | App.tsx:97-99 | matching orders get the new status, from any status; every other field and every other order is unchanged |
| App.SetStatusIdempotent | App.tsx:97-99 | setting the same status twice equals setting it once |
| App.SetStatusOverrides | App.tsx:97-99 | a later status replaces an earlier one whatever both are: there is no transition guard |
| App.TogglePaid | App.tsx:101-103 | matching orders have their paid flag negated; every other field and every other order is unchanged |
| App.ToggleTwiceRestores | App.tsx:101-103 | toggling twice restores the orders; toggling once an id that exists changes them |
| App.Store.Seed | App.tsx:11-33 | the first-run state is the two seed customers, two seed lots and two seed orders, with unique ids |
| App.Store.AddProduct | App.tsx:45-53 | exactly one new lot is appended at the end and nothing else changes; ids stay unique; the stock bounds are kept for a non-negative total |
| App.Store.ArchiveProduct | App.tsx:55-57 | the lots become `Archive` of the old lots and nothing else changes; the stock bounds are kept |
| App.Store.AddCustomer | App.tsx:59-67 | exactly one customer is appended and returned, with the fresh id and the time; nothing else changes |
| App.Store.AddOrder | App.tsx:69-95 | the outcome is `StockCheck` of the old lots. A rejection changes nothing. An acceptance puts the new pending, unpaid order at index 0 ahead of the old orders and takes the quantity from the lot. It keeps stock at zero or more, and keeps the bounds when the quantity is not negative. Customers never change and ids stay unique |
| App.Store.UpdateOrderStatus | App.tsx:97-99 | the orders become `SetStatus` of the old orders; customers and lots are unchanged |
| App.Store.ToggleOrderPayment | App.tsx:101-103 | the orders become `TogglePaid` of the old orders; customers and lots are unchanged |
| Orders.FindCustomerByName | components/Orders.tsx:50-52 | finds nothing exactly when no customer's lowered name contains the lowered name; otherwise finds the first that does |
| Orders.FindActiveProduct | components/Orders.tsx:67-71 | finds nothing exactly when no active lot's lowered name contains the lowered keywords; otherwise finds the first such lot |
| Orders.MatchedCustomerId | components/Orders.tsx:49-53 | with no name extracted the id is empty; a non-empty id belongs to a customer whose name matches |
| Orders.NewCustomer | components/Orders.tsx:55-60 | the customer created from the extraction carries the fresh id, the name, the phone and the time, and always has an address: the extracted one, or the placeholder |
| Orders.Fill | components/Orders.tsx:64-80 | steps 1 (selection) to 4 once `customerIdMatch` is known: a non-empty id becomes the selection, and a changed lot is an active one; the message is kept and the error cleared. Its rules are stated by the lemmas below |
| Orders.Reconcile | components/Orders.tsx:47-80 | steps 1 to 4 for a non-null result: a customer is created exactly when `CreatesCustomer` holds, with the fresh id, and becomes the selection |
| Orders.SmartPaste | components/Orders.tsx:39-89 | `handleSmartPaste` as a function: the message is always kept, and a customer is only created from a non-blank message and a non-null result. Its rules are stated by the lemmas below |
| Orders.BlankInputIsIgnored | components/Orders.tsx:40 | a message of white space only changes nothing and creates nobody |
| Orders.FailedReplyKeepsDraft | components/Orders.tsx:47-85 | a `null` result or an exception leaves the draft and the message as they were and creates nobody; a non-blank message shows the matching error text |
| Orders.SelectsFirstMatchingCustomer | components/Orders.tsx:50-64 | the first customer whose name contains the extracted name is selected when its id is not empty; nobody is created and the note stays |
| Orders.CreatesCustomerOnlyWhenUnmatched | components/Orders.tsx:55-62 | a customer is created exactly when no id matched and both a name and a phone were extracted. It carries the fresh id, the name, the phone and the address or the placeholder. It becomes the selection |
| Orders.UnmatchedCustomerKeepsSelection | components/Orders.tsx:64-80 | with no match and no phone the selected customer stays; an extracted address becomes the note |
| Orders.SelectsFirstActiveProduct | components/Orders.tsx:67-72 | the selected lot is unchanged or is the first active lot matching the keywords, so archived lots are never chosen; with no keywords or no match it is unchanged |
| Orders.SelectsFirstMatchingProduct | components/Orders.tsx:67-71 | with keywords extracted, the first active lot whose lowered name contains them is selected |
| Orders.QuantityAndNotesRules | components/Orders.tsx:75-80 | the quantity is replaced only by a present, non-zero one. The note becomes the extracted address exactly when an address was extracted and no customer id was found or created. In that case the selected customer stays. The error is cleared |
| Orders.Submit | components/Orders.tsx:91-106 | nothing is forwarded exactly when the customer or the lot is unselected, and then nothing changes. Otherwise the one order built from the draft is forwarded and the form is reset to no selection, quantity 1, no note and no message |
| Orders.SubmitTwiceForwardsOnce | components/Orders.tsx:93-106 | a second submit right after a successful one forwards nothing |
| Orders.OrderForm.constructor | components/Orders.tsx:29-37 | the form starts with nothing selected, quantity 1, no note, no message and no error |
| Orders.OrderForm.SetInput | components/Orders.tsx:35 | typing changes only the message |
| Orders.OrderForm.HandleSmartPaste | components/Orders.tsx:39-89 | the new form state is `SmartPaste` of the old state, and the customers gain exactly the customer it creates, if any; lots and orders are unchanged and ids stay unique |
| Orders.OrderForm.ResolveCustomer | components/Orders.tsx:49-62 | the resolved id is the first name match or the created customer's id; a customer is appended through the store exactly when one is created |
| Orders.OrderForm.ApplyResult | components/Orders.tsx:47-80 | for a non-null result the form becomes `Reconcile` of the old state, and the store gains exactly the customer created |
| Orders.OrderForm.ApplyFill | components/Orders.tsx:64-80 | once the customer id is known, the selections, quantity and note are set by the rules above and nothing else changes |
| Orders.OrderForm.HandleSubmit | components/Orders.tsx:91-108 | the form becomes `Submit` of the old state. A forwarded order the stock check accepts is placed at the front and its lot is decremented. Otherwise the store is unchanged |
| Orders.TabOrders | components/Orders.tsx:131-134 | the tab's orders are a subsequence of the stored ones, every one with a status of that tab; "all" keeps every order |
| Orders.TabsPartitionOrders | components/Orders.tsx:131-134 | the "pending" and "shipped" tabs together hold every order exactly once |
| Orders.InsertByDate | components/Orders.tsx:135 | inserting into a newest-first list keeps it newest first and adds exactly that order |
| Orders.SortNewestFirst | components/Orders.tsx:135 | the result is sorted newest first and is a permutation of the input |
| Orders.FilteredOrders | components/Orders.tsx:131-135 | the listed orders are sorted newest first and are a permutation of the tab's orders |
| Orders.FilteredOrdersMembership | components/Orders.tsx:131-134 | an order is listed under a tab exactly when it is stored and its status belongs to the tab |
| Dashboard.PendingOrders | components/Dashboard.tsx:13 | the kept orders are pending and stored; every pending order is kept |
| Dashboard.PendingCountIsExact | components/Dashboard.tsx:13-44 | the counter equals the number of orders whose status is exactly pending |
| Dashboard.PendingTabCountsLabels | components/Orders.tsx:132 | the order screen's pending tab holds the pending orders plus those with a label, so the counter leaves the latter out |
| Dashboard.TotalStock | components/Dashboard.tsx:15 | `totalStock` equals the units left counted lot by lot with archived lots counting 0 (`ActiveUnits`) |
| Dashboard.ActiveSumIsActiveUnits | components/Dashboard.tsx:12-15 | summing the remaining units of the active lots equals the lot-by-lot count in which archived lots contribute nothing |
| Dashboard.ActiveUnitsPointUpdate | components/Dashboard.tsx:15 | changing one lot changes the total by exactly the change in that lot's contribution |
| Dashboard.ArchiveLowersTotalStock | App.tsx:55-57 | archiving an active lot takes its remaining units out of the total; archiving an archived lot leaves the total |
| Dashboard.PlacedOrderLowersTotalStock | App.tsx:87-91 | an accepted order lowers the total by its quantity when the lot is active and leaves it when the lot is archived |
| Dashboard.LowStock | components/Dashboard.tsx:71-76 | every listed lot is stored, active and below 10 units; every such lot is listed |
| Dashboard.LowStockExact | components/Dashboard.tsx:71-76 | the low-stock list is exactly the active lots with fewer than 10 units, in stored order |
| Dashboard.StockLabel | components/Dashboard.tsx:80-81 | the badge is "COMPLETA" exactly when no unit is left; the rest of its text is stated by `StockLabelIff` |
| Dashboard.StockLabelIff | components/Dashboard.tsx:80-81 | a lot is labelled "COMPLETA" exactly when no unit is left; otherwise the label ends with the units left |
| Dashboard.RecentOrders | components/Dashboard.tsx:95 | the recent list is the first `min(5, n)` stored orders, not re-sorted |
| Dashboard.AcceptedOrderIsMostRecent | components/Dashboard.tsx:95 | an accepted order heads the recent list and the others move one place down |
| Dashboard.FindCustomer | components/Dashboard.tsx:96 | finds nothing exactly when no customer has the id; otherwise finds the first that does |
| Dashboard.CustomerLabel | components/Dashboard.tsx:96-101 | the shown name is never empty: it is "Cliente Desconhecido" or the name of a customer holding the order's customer id |
| Dashboard.CustomerLabelCases | components/Dashboard.tsx:96-101 | an unknown customer id shows "Cliente Desconhecido"; with unique ids a known customer with a name shows that name |
| Customers.FilterCustomers | components/Customers.tsx:15-18 | every listed customer is stored and matches the term; every stored customer that matches is listed |
| Customers.FilterCustomersExact | components/Customers.tsx:15-18 | a customer is listed exactly when its lowered name contains the lowered term or its stored number contains the raw term; the list is a subsequence of the customers |
| Customers.EmptyTermKeepsAll | components/Customers.tsx:15-18 | an empty search lists every customer, in order |
| Customers.StoredNumberIsNotCleaned | components/Customers.tsx:17 | the number is searched as stored: "(11) 98888" is not found by "1198888" |
| Customers.WhatsAppNumber | components/Customers.tsx:28 | the number handed to WhatsApp is only digits, a subsequence of the stored number, no longer, and already clean |
| Inventory.IsComplete | components/Inventory.tsx:100 | defined as no unit left; its meaning is stated by `IsCompleteIsDashboardLabel` |
| Inventory.IsCompleteIsDashboardLabel | components/Inventory.tsx:100 | a lot is complete exactly when the overview labels it "COMPLETA" |
| Inventory.Block | components/Inventory.tsx:33-36 | a lot's block starts with the bullet and ends with a line break; its content is stated by `BlockShowsNameAndUnits` and `PriceLineShowsPrice` |
| Inventory.BlockShowsNameAndUnits | components/Inventory.tsx:33-34 | a lot's block shows its name right after the bullet and its units left on the next line |
| Inventory.PriceLineShowsPrice | components/Inventory.tsx:35 | the price line is present exactly when the price is present and positive; it then shows the price with two decimals, which reads back as that price |
| Inventory.ListingIsInStockBlocks | components/Inventory.tsx:31-38 | the loop appends the blocks of the lots with units left, in order, and nothing else |
| Inventory.ActiveListingContents | components/Inventory.tsx:23-38 | a lot has a block exactly when it is active and has units left, and blocks follow the stored order |
| Inventory.ShareWithNoActiveLot | components/Inventory.tsx:26-29 | with no active lot the shared message is the header and the "nothing available" line, without the footer |
| Inventory.CopyFraming | components/Inventory.tsx:47-56 | the copied message starts with the header and always ends with the footer; with no active lot it is only those two |
| Inventory.ShareEqualsCopyWhenActive | components/Inventory.tsx:26-56 | with at least one active lot both buttons produce the same message |
| Inventory.ShareText | components/Inventory.tsx:25-40 | the shared message starts with the header and, with an active lot, ends with the footer |
| Inventory.CopyText | components/Inventory.tsx:46-56 | the copied message starts with the header and ends with the footer |
| Inventory.ShareToWhatsApp | components/Inventory.tsx:25-44 | the message built equals `ShareText` of the lots |
| Inventory.CopyToClipboard | components/Inventory.tsx:46-61 | the message built equals `CopyText` of the lots |
| Inventory.AppendBlocks | components/Inventory.tsx:31-55 | after the loop the message is the start followed by the entries of all the lots, in order |
| Inventory.AppendBlock | components/Inventory.tsx:33-36 | the four appends add exactly the lot's block |

## Left out

- Persistence to `localStorage` and JSON loading are browser I/O. The seed data is the model's only initial state.
- The call to the extraction service is a network client; only its reply is modelled, as `Reply`.
- The `isProcessing` busy flag and the `await` are left out: the model has no concurrency.
- The stock alert's text is left out; its number is `InsufficientStock.available`.
- Money arithmetic in floating point is left out: `price * quantity`, the overview's amount receivable, and the progress percentages.
- `window.open`, `encodeURIComponent`, the clipboard write and the `copied` timer are browser side effects. The model stops at the message text.
- The texts of the order screen's WhatsApp follow-up messages are left out; only their phone cleaning is modelled.
- `parseInt`/`parseFloat` of form text, including `NaN`, is left out; quantities and prices are integers.
- JSX rendering, styling and view switching are left out.
- The customer and inventory forms' `handleSubmit` only forwards to `addCustomer` and `addProduct`. The model has those two actions and not the forwarding.
- `Text.Lower`: only ASCII and Latin-1 capitals are lowered, and not the rest of Unicode.
- `Orders.SortNewestFirst`: the contract states sortedness and permutation, not the stability of the JavaScript sort for orders of equal date.
- `Orders.OrderForm.HandleSubmit`: the modal is not part of the model, so closing it is left out.
- Ids drawn from `Math.random` and `new Date()` are parameters. That ids are unused is a precondition and not a probability.
