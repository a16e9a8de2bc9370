# Naneli retail shop front end, modelled in Dafny

This project models the client-side logic of the Naneli retail point-of-sale front end. The
original is a React application whose state lives in four Redux slices. The model covers:

- **The slices.**
  - `auth` holds the signed-in user, the role and the user list kept for administration.
  - `users` holds the user list of the user-management page, with its request flags.
  - `inventory` holds the product catalogue and its request lifecycle.
  - `sales` holds the recorded sales, the profit figures and the date-window selectors.
- **The pages and components that compute on that state.**
  - The point-of-sale screen: cart guards, profit, the checkout with its stock write-back.
  - The sales page: the view switch, totals and the "profit" figure.
  - The profit page: per-sale profit, filtered profit and the option selection.
  - The dashboard: today's figures, low stock and the weekday chart.
  - The inventory page: the product search and role-gated controls.
  - The navigation bar and the side bar: which links each role sees.

Each slice is a class whose fields are the slice's state. Each reducer is a method with a
`modifies` clause, whose `ensures` gives the whole new state in terms of the old one. Each
asynchronous thunk is a method that runs `pending`, then the thunk's own guard, then
`fulfilled` or `rejected`. The backend is a parameter: a reply, or a function from the
request to the reply.

The list updates the reducers perform are pure functions:

- removal by id is a filter;
- replacement of the first record with an id is a `findIndex` followed by an assignment;
- totals are left folds, as `reduce` computes them.

The lemmas about these functions are the model's properties. Removal keeps exactly the
other records, in order, and is idempotent. A replacement changes one record and nothing
else. The totals add up over concatenation.

JavaScript's loose values are explicit:

- a numeric field that may be absent is an `Option<int>`, and it is falsy when absent or
  zero;
- arithmetic that may meet `undefined` works on `JsNumber`, which is a finite integer or
  NaN;
- an expression that may raise a `TypeError` yields an `Eval`, which is a value or
  `Throws`.

Money is an integer number of minor units. A timestamp is an integer number of
milliseconds. Local-time day boundaries, the weekday and the month length come from a
`Calendar` of functions. The dashboard's UTC day is computed exactly, as `t / 86400000`.

## Model

| member | source | states |
|---|---|---|
| SalesSlice.ItemProfit | src/store/slices/salesSlice.js:47-50 | what one item adds: (price − cost) × quantity when all three fields are truthy, and nothing otherwise; the laws are in SkippedItemsEarnNothing |
| SalesSlice.SaleProfit | src/store/slices/salesSlice.js:45-52 | a sale without items, or with none, earns 0; otherwise the sum of its items' profits in item order |
| SalesSlice.TotalProfit | src/store/slices/salesSlice.js:55-57 | the sum of the sales' profits, before formatting; it adds up over concatenation (TotalProfitAppend) |
| SalesSlice.SkippedItemsEarnNothing | src/store/slices/salesSlice.js:45-52 | a sale's profit is the sum of (price − cost) × quantity over the items whose three fields are all truthy; the others add nothing |
| SalesSlice.TotalProfitAppend | src/store/slices/salesSlice.js:55-57 | the total profit of two lists of sales concatenated is the sum of their totals |
| SalesSlice.ZeroCostItemEarnsNothing | src/store/slices/salesSlice.js:48 | an item sold twice at 100 that cost 0 adds 0 to the profit, where 200 was earned |
| SalesSlice.IntendedItemProfit | src/store/slices/salesSlice.js:48-49 | corrected item profit: any present cost, 0 included, gives (price − cost) × quantity; a missing field gives 0 |
| SalesSlice.IntendedAgreesOnTruthyItems | src/store/slices/salesSlice.js:48-49 | the corrected and the as-written item profit differ only on an item with a zero field |
| SalesSlice.TodayWindow | src/store/slices/salesSlice.js:62-70 | the local day of "now", from its first to its last millisecond |
| SalesSlice.WeekWindow | src/store/slices/salesSlice.js:72-83 | the week window as written, from the Sunday of the current week to the end of day d − 2·dow + 6 |
| SalesSlice.MonthWindow | src/store/slices/salesSlice.js:85-95 | from the first of the current month to the end of its last day |
| SalesSlice.SalesIn | src/store/slices/salesSlice.js:62-95 | the sales whose timestamp lies in a window, in stored order; its laws are in WindowSelection |
| SalesSlice.SalesForToday | src/store/slices/salesSlice.js:62-70 | the sales inside TodayWindow |
| SalesSlice.SalesForThisWeek | src/store/slices/salesSlice.js:72-83 | the sales inside WeekWindow |
| SalesSlice.SalesForThisMonth | src/store/slices/salesSlice.js:85-95 | the sales inside MonthWindow |
| SalesSlice.WindowSelection | src/store/slices/salesSlice.js:62-95 | a window selector keeps exactly the sales whose timestamp lies within the window, inclusive at both ends, in their original order |
| SalesSlice.DaysInOrder | src/store/slices/salesSlice.js:62-70 | on a calendar whose days follow each other, an earlier day ends before a later day starts |
| SalesSlice.DaysMonotone | src/store/slices/salesSlice.js:62-70 | day boundaries never decrease with the day number |
| SalesSlice.WeekWindowCoversTodayIff | src/store/slices/salesSlice.js:72-83 | the week window as written ends at the end of day d − 2·dow + 6, so it contains today exactly when today's weekday is at most Wednesday |
| SalesSlice.WeekWindowMissesTodayLateInWeek | src/store/slices/salesSlice.js:72-83 | from Thursday on, every sale the week selector keeps lies before the start of today |
| SalesSlice.CalendarWeekWindow | src/store/slices/salesSlice.js:72-83 | corrected week window, Sunday to Saturday: it contains all of today, and on a Sunday it is the window as written |
| SalesSlice.MonthWindowCoversToday | src/store/slices/salesSlice.js:85-95 | every instant of today lies within this month's window |
| SalesSlice.FetchSalesGuard | src/store/slices/salesSlice.js:14-16 | the request goes out exactly when the session is authenticated and has a user; otherwise it is rejected with the no-session message |
| SalesSlice.SalesOnDay | src/store/slices/salesSlice.js:146-151 | the sales whose local day equals the parsed selected day; a date that does not parse selects none |
| SalesSlice.UnparsedDateFiltersNothing | src/store/slices/salesSlice.js:146-151 | a selected date that parses to no day selects no sale, so the filtered profit is 0 |
| SalesSlice.SalesStore.constructor | src/store/slices/salesSlice.js:114-121 | the initial state: no sales, both profits 0, no error, not loading, no selected date |
| SalesSlice.SalesStore.SetTotalProfit | src/store/slices/salesSlice.js:123-125 | sets the total profit only |
| SalesSlice.SalesStore.SetFilteredProfit | src/store/slices/salesSlice.js:126-128 | sets the filtered profit only |
| SalesSlice.SalesStore.SetSelectedDate | src/store/slices/salesSlice.js:129-131 | sets the selected date only |
| SalesSlice.SalesStore.ResetFilteredProfit | src/store/slices/salesSlice.js:132-134 | sets the filtered profit to 0 and nothing else |
| SalesSlice.SalesStore.Pending | src/store/slices/salesSlice.js:139-141 | sets loading and leaves the previous error in place |
| SalesSlice.SalesStore.FetchSalesFulfilled | src/store/slices/salesSlice.js:142-153 | replaces the sales and recomputes the total profit; when a date is selected, the filtered profit becomes the profit of that day's sales; the error is not cleared |
| SalesSlice.SalesStore.FetchSalesRejected | src/store/slices/salesSlice.js:154-157 | stops loading and stores the payload as the error, keeping the sales |
| SalesSlice.SalesStore.RecordSaleFulfilled | src/store/slices/salesSlice.js:163-167 | appends the sale; the new total profit is the old sales' profit plus the new sale's |
| SalesSlice.SalesStore.RecordSaleRejected | src/store/slices/salesSlice.js:168-171 | stores the payload as the error, or "Failed to record sale" when it is empty |
| SalesSlice.SalesStore.FetchSales | src/store/slices/salesSlice.js:7-28 | the request is made exactly when the guard passes; on success the sales and the total profit are replaced, the error is kept and the filtered profit recomputed only when a date is selected; on a refusal or a failure the error is set and the sales and both profits are kept; loading ends and the selected date is kept |
| SalesSlice.SalesStore.RecordSale | src/store/slices/salesSlice.js:31-42 | returns the backend's answer; a success appends the sale and adds its profit; a failure keeps the sales and sets the error |
| InventorySlice.WithoutId | src/store/slices/inventorySlice.js:273-275 | the products whose id differs from the given one, in order; its laws are in WithoutIdRemovesExactly |
| InventorySlice.ReplaceById | src/store/slices/inventorySlice.js:314-321 | the first product with the payload's id replaced by the payload; its laws are in ReplaceByIdChangesOneRecord |
| InventorySlice.SetStock | src/store/slices/inventorySlice.js:347-354 | the quantity of the first product with the id set; its laws are in SetStockChangesOneField |
| InventorySlice.WithoutIdRemovesExactly | src/store/slices/inventorySlice.js:273-275 | removing an id keeps exactly the products with other ids, in order; removing twice equals removing once; an absent id changes nothing |
| InventorySlice.ReplaceByIdChangesOneRecord | src/store/slices/inventorySlice.js:314-321 | the first product with the payload's id becomes the payload; the length, the ids and every other product are unchanged; an absent id changes nothing |
| InventorySlice.SetStockChangesOneField | src/store/slices/inventorySlice.js:347-354 | only the quantity of the first product with the id changes; an absent id changes nothing |
| InventorySlice.IconOrNull | src/store/slices/inventorySlice.js:195 | an empty or missing icon is sent as null; any other icon is sent unchanged |
| InventorySlice.StockUpdateGuard | src/store/slices/inventorySlice.js:238-240 | the stock update goes ahead exactly when the id is nonzero and the quantity is a nonzero number; NaN and 0 are rejected with the missing-field message |
| InventorySlice.StockUpdateToZeroRejected | src/store/slices/inventorySlice.js:238-240 | a new stock of 0 is rejected as missing |
| InventorySlice.InventoryStore.constructor | src/store/slices/inventorySlice.js:169-173 | no products, not loading, no error |
| InventorySlice.InventoryStore.SetLoading | src/store/slices/inventorySlice.js:266-268 | sets loading only |
| InventorySlice.InventoryStore.SetError | src/store/slices/inventorySlice.js:269-271 | sets the error only |
| InventorySlice.InventoryStore.RemoveProductFromInventory | src/store/slices/inventorySlice.js:273-275 | removes every product with the id and leaves the flags alone |
| InventorySlice.InventoryStore.Pending | src/store/slices/inventorySlice.js:280-283 | sets loading and clears the error (the same for all five thunks) |
| InventorySlice.InventoryStore.Rejected | src/store/slices/inventorySlice.js:289-292 | stops loading and stores the payload as the error, keeping the products |
| InventorySlice.InventoryStore.FetchProductsFulfilled | src/store/slices/inventorySlice.js:284-288 | replaces the products and clears the error |
| InventorySlice.InventoryStore.CreateProductFulfilled | src/store/slices/inventorySlice.js:299-303 | appends exactly the payload |
| InventorySlice.InventoryStore.UpdateProductByIdFulfilled | src/store/slices/inventorySlice.js:314-321 | replaces the first product with the payload's id |
| InventorySlice.InventoryStore.DeleteProductByIdFulfilled | src/store/slices/inventorySlice.js:332-336 | removes every product with the id |
| InventorySlice.InventoryStore.UpdateInventoryStockFulfilled | src/store/slices/inventorySlice.js:347-354 | sets the stock of the first product with the payload's id |
| InventorySlice.InventoryStore.FetchProducts | src/store/slices/inventorySlice.js:176-186 | a success replaces the products; a failure keeps them and sets the error, "Failed to fetch products" when the backend gave no message |
| InventorySlice.InventoryStore.CreateProduct | src/store/slices/inventorySlice.js:189-202 | sends the product with its icon defaulted to null; appends the backend's answer, or sets the error ("Failed to add product" by default) |
| InventorySlice.InventoryStore.UpdateProductById | src/store/slices/inventorySlice.js:205-218 | sends the data with its icon defaulted to null; replaces by id with the answer, or sets the error |
| InventorySlice.InventoryStore.DeleteProductById | src/store/slices/inventorySlice.js:221-231 | removes the id on success; on failure keeps the products and sets the error ("Failed to delete product" by default) |
| InventorySlice.InventoryStore.UpdateInventoryStock | src/store/slices/inventorySlice.js:234-260 | a guard failure rejects without calling the backend; otherwise the backend's answer sets the stock, or its failure sets the error |
| AuthSlice.RestoredUser | src/store/slices/authSlice.js:5 | the stored user, or none without a stored entry |
| AuthSlice.RestoredAuthenticated | src/store/slices/authSlice.js:6 | authenticated exactly when an entry is stored, whatever it holds |
| AuthSlice.RestoredRole | src/store/slices/authSlice.js:7 | the stored user's role when it is non-empty, otherwise none |
| AuthSlice.RestoredStateConsistent | src/store/slices/authSlice.js:3-9 | after a reload, a restored user is authenticated; a restored role is the restored user's non-empty role; no stored entry means no user and no role |
| AuthSlice.Merge | src/store/slices/authSlice.js:56 | spreading a patch over a user takes each field from the patch when the patch has it, and from the user otherwise |
| AuthSlice.MergeLaws | src/store/slices/authSlice.js:56 | an empty patch changes nothing, and applying a patch twice equals applying it once |
| AuthSlice.WithoutUser | src/store/slices/authSlice.js:63 | the users whose id differs from the given one, in order |
| UsersSlice.ReplaceUser | src/store/slices/usersSlice.js:122-128 | the first user with the payload's id replaced by the payload |
| AuthSlice.EditedUsers | src/store/slices/authSlice.js:52-58 | the patch merged into the first user with the id |
| AuthSlice.WithoutUserRemovesExactly | src/store/slices/authSlice.js:61-64 | deleting an id keeps exactly the users with other ids, in order, and is idempotent |
| AuthSlice.EditedUsersChangesOne | src/store/slices/authSlice.js:52-58 | editing merges the patch into the first user with the id only; an absent id changes nothing |
| UsersSlice.ReplaceUserChangesOne | src/store/slices/usersSlice.js:122-128 | the first user with the payload's id becomes the payload; the others are untouched |
| AuthSlice.AuthStore.constructor | src/store/slices/authSlice.js:3-9 | the initial state is derived from the stored entry; the user list is empty |
| AuthSlice.AuthStore.Login | src/store/slices/authSlice.js:16-28 | the user is the payload stamped with the login time and a null logout time; the session is authenticated with the payload's role; the payload itself is stored |
| AuthSlice.AuthStore.Logout | src/store/slices/authSlice.js:31-38 | clears the user and the role, and the authenticated flag; removes the stored entry |
| AuthSlice.AuthStore.SetUser | src/store/slices/authSlice.js:41-44 | sets the user and the user's role; the authenticated flag is left alone |
| AuthSlice.AuthStore.AddUser | src/store/slices/authSlice.js:47-49 | appends one user to the list |
| AuthSlice.AuthStore.EditUser | src/store/slices/authSlice.js:52-58 | merges the patch into the first listed user with the id |
| AuthSlice.AuthStore.DeleteUser | src/store/slices/authSlice.js:61-64 | removes every listed user with the id |
| AuthSlice.AuthStore.SetUsers | src/store/slices/authSlice.js:67-69 | replaces the list |
| AuthSlice.LogoutTwice | src/store/slices/authSlice.js:31-38 | logging out twice leaves the state of one logout, and a reload then starts signed out |
| AuthSlice.ReloadAfterLogin | src/store/slices/authSlice.js:3-9 | a reload after a login restores an authenticated session for the stored user, with that user's role when it is non-empty |
| UsersSlice.UsersStore.constructor | src/store/slices/usersSlice.js:7-11 | no users, not loading, no error |
| UsersSlice.UsersStore.ResetError | src/store/slices/usersSlice.js:83-85 | clears the error only |
| UsersSlice.UsersStore.Pending | src/store/slices/usersSlice.js:90-93 | sets loading and clears the error (the same for all four thunks) |
| UsersSlice.UsersStore.Rejected | src/store/slices/usersSlice.js:98-101 | stops loading and stores the message, keeping the users |
| UsersSlice.UsersStore.FetchUsersFulfilled | src/store/slices/usersSlice.js:94-97 | replaces the users and leaves the error as it was |
| UsersSlice.UsersStore.AddUserFulfilled | src/store/slices/usersSlice.js:108-111 | appends the created user |
| UsersSlice.UsersStore.UpdateUserFulfilled | src/store/slices/usersSlice.js:122-128 | replaces the first user with the payload's id |
| UsersSlice.UsersStore.DeleteUserFulfilled | src/store/slices/usersSlice.js:139-142 | removes every user with the id |
| UsersSlice.UsersStore.FetchUsers | src/store/slices/usersSlice.js:14-25 | a success replaces the list with no error left; a failure keeps the list and stores the message |
| UsersSlice.UsersStore.AddUser | src/store/slices/usersSlice.js:28-43 | a success appends the created user; a failure keeps the list and stores the message |
| UsersSlice.UsersStore.UpdateUser | src/store/slices/usersSlice.js:46-61 | a success replaces by id; a failure keeps the list and stores the message |
| UsersSlice.UsersStore.DeleteUser | src/store/slices/usersSlice.js:64-76 | a success removes the id; a failure keeps the list and stores the message |
| Pos.FindProduct | src/pages/POS.jsx:48 | `find` by id: none exactly when no product has the id, otherwise the first product with it |
| Pos.AddToCartReaction | src/pages/POS.jsx:33-44 | adding is refused with "Not enough stock available" exactly when the cart already holds at least the stock; otherwise refused with "Product out of stock" when the stock is 0; otherwise dispatched |
| Pos.QuantityChangeReaction | src/pages/POS.jsx:47-57 | an unknown product does nothing; a quantity from 1 up to the stock is dispatched; anything else is refused with the stock message |
| Pos.DecrementFromOneRefused | src/pages/POS.jsx:51 | a quantity of 0 is never dispatched |
| Pos.LineProfit | src/pages/POS.jsx:62-70 | a line earns (price − catalogue cost) × quantity, or nothing when its product is not in the catalogue |
| Pos.CartProfit | src/pages/POS.jsx:60-72 | the lines' profits summed in cart order; CalculateProfit computes it |
| Pos.CalculateProfit | src/pages/POS.jsx:60-72 | the loop computes the cart's profit: (price − catalogue cost) × quantity summed over the lines whose product is in the catalogue |
| Pos.UnknownLinesEarnNothing | src/pages/POS.jsx:62-70 | lines whose product is not in the catalogue add nothing to the profit |
| Pos.SaleItemOf | src/pages/POS.jsx:84-93 | the item sent for a line: its id, name, price, cost and quantity |
| Pos.BuildSale | src/pages/POS.jsx:82-97 | the sale sent has no id of its own and one item per cart line, carrying its id, name, price, cost and quantity and the sale id 1; the cashier is the user's id, or 1 without a user; the total is the cart's |
| Pos.ItemProfitMatchesLine | src/pages/POS.jsx:84-93 | when a line's cost equals the catalogue cost and its fields are nonzero, the recorded item earns what the screen computed for the line |
| Pos.RecordedProfitMatchesScreen | src/pages/POS.jsx:82-116 | under the same conditions on every line, the sales store's profit of the recorded sale equals the screen's profit of the cart |
| Pos.NewQuantity | src/pages/POS.jsx:120-123 | the new stock is the catalogue stock minus the line quantity, or NaN when the product is not in the catalogue |
| Pos.LineStep | src/pages/POS.jsx:120-130 | one turn of the write-back: the guard, the backend call, and the removal with its throw when the new stock is not positive |
| Pos.SyncRun | src/pages/POS.jsx:119-130 | the write-back over the lines in order, stopping at the first throw; WriteBackStock computes it |
| Pos.LineStepThrowsIff | src/pages/POS.jsx:119-130 | one line of the write-back throws unless the guard passes, the backend accepts and the new stock stays positive |
| Pos.SyncStopsAtThrow | src/pages/POS.jsx:119-130 | once a line throws, the lines after it change nothing |
| Pos.SyncCompletesIff | src/pages/POS.jsx:119-130 | the write-back finishes without a throw exactly when every line is accepted |
| Pos.SellingLastUnitThrows | src/pages/POS.jsx:119-130 | a checkout that sells the last unit of a product always ends in the catch |
| Pos.IntendedLineStep | src/pages/POS.jsx:119-130 | corrected write-back step: a stock reaching 0 or less is stored and the product removed without a throw; on an accepted line it is the step as written |
| Pos.WriteBackStock | src/pages/POS.jsx:119-130 | the loop leaves the inventory store in the state the prefix-by-prefix specification of the write-back gives, and returns what it threw |
| Pos.PosScreen.constructor | src/pages/POS.jsx:14-17 | empty search, cash payment, amount 0, no completed transaction |
| Pos.PosScreen.HandleAddToCart | src/pages/POS.jsx:33-44 | dispatches the add or returns the toast, as the reaction says |
| Pos.PosScreen.HandleQuantityChange | src/pages/POS.jsx:47-57 | dispatches the update or returns the toast, as the reaction says |
| Pos.PosScreen.HandlePaymentMethodChange | src/pages/POS.jsx:148-153 | sets the method; choosing cash sets the amount to the cart total, any other method keeps the amount |
| Pos.PosScreen.HandleNewSale | src/pages/POS.jsx:161-167 | clears the cart and resets the screen, with no completed transaction |
| Pos.PosScreen.HandleCheckout | src/pages/POS.jsx:75-145 | the sales store's selected date is kept on every path; an empty cart changes nothing in either store; a refused sale ends loading and sets the sales error (or "Failed to record sale") and changes nothing else; otherwise the sale is appended, the total profit becomes the cart's profit, the error and filtered profit are kept, the inventory ends as the write-back specification says, and only a completed checkout clears the cart and resets the screen |
| Pos.RecordAndPublish | src/pages/POS.jsx:101-116 | the sale is recorded; on success it is appended, the error kept and the total profit set to the cart's profit; on a refusal the sales and total profit are kept and the error set; loading ends, the filtered profit and the selected date are kept |
| Pos.PosScreen.WriteBackAndClear | src/pages/POS.jsx:119-139 | the inventory ends as the write-back specification says; only a write-back without a throw clears the cart and resets the screen |
| SalesPage.TotalSales | src/pages/Sales.jsx:44-46 | the sales' totals summed, a missing total counting as 0 |
| SalesPage.TotalSalesLaws | src/pages/Sales.jsx:44-46 | a missing or zero total counts as 0, so the total is that of the sales with a truthy total; totals add over concatenation |
| SalesPage.SalesData | src/pages/Sales.jsx:49-62 | daily, weekly and monthly pick their window, overall lists every sale, any other view lists today's |
| SalesPage.TotalSalesFor | src/pages/Sales.jsx:65-78 | the total for a view: daily, weekly and monthly sum their window, overall sums every sale, any other view today's |
| SalesPage.TotalMatchesData | src/pages/Sales.jsx:65-78 | the total shown is the total of the list shown, which is a subsequence of all sales |
| SalesPage.DisplayedProfit | src/pages/Sales.jsx:81-94 | the overall view shows the store's profit of every sale; every other view shows the total sales, not a profit |
| SalesPage.Subtotal | src/pages/Sales.jsx:213 | price × quantity, NaN when either is missing |
| ProfitPage.Selection | src/pages/Profit.jsx:38-53 | Today, This Week and This Month select their window; Overall and any other option select nothing |
| ProfitPage.RawItemProfit | src/pages/Profit.jsx:58 | (price − cost) × quantity with no guard, NaN when a field is missing |
| ProfitPage.PageSaleProfit | src/pages/Profit.jsx:56-60 | the items' raw profits summed; reading the items of a sale without them throws |
| ProfitPage.PageProfitAgreesWithStore | src/pages/Profit.jsx:56-60 | on a sale whose item fields are all truthy, the page's profit equals the store's |
| ProfitPage.PageProfitNaNIff | src/pages/Profit.jsx:56-60 | the page's profit throws exactly when the sale has no items, and is NaN exactly when some item lacks a field |
| ProfitPage.ZeroCostCountsOnPage | src/pages/Profit.jsx:58 | a zero-cost item earns on the page what the store's guarded helper drops |
| ProfitPage.ProfitOfSales | src/pages/Profit.jsx:114-118 | the per-sale profits folded from the left; a throw anywhere makes the sum throw |
| ProfitPage.FilteredProfit | src/pages/Profit.jsx:107-121 | 0 for Overall or an empty selection, otherwise the sum of the page's per-sale profits |
| ProfitPage.ProfitOfSalesAgreesWithStore | src/pages/Profit.jsx:114-118 | when every selected sale is complete, the filtered profit is the store's total profit of those sales |
| ProfitPage.MissingItemsThrow | src/pages/Profit.jsx:114-118 | one selected sale without items makes the whole sum throw |
| ProfitPage.ItemsSold | src/pages/Profit.jsx:71 | the cell shows the number of item lines, and throws (a `length` read on undefined) when the sale has no items |
| ProfitPage.ItemsSoldThrowsWithProfit | src/pages/Profit.jsx:56-71 | the Items Sold cell throws on exactly the sales whose Profit cell throws |
| ProfitPage.ItemsSoldCountsLines | src/pages/Profit.jsx:71 | a single line of three units shows 1, and a sale without items throws |
| ProfitPage.ProfitScreen.constructor | src/pages/Profit.jsx:26 | the option starts as Overall |
| ProfitPage.ProfitScreen.Mount | src/pages/Profit.jsx:87-90 | mounting clears the store's selected date and nothing else |
| ProfitPage.ProfitScreen.HandleDateSelection | src/pages/Profit.jsx:93-96 | the option label becomes both the page's option and the store's selected date |
| Dashboard.SameUtcDayIff | src/pages/Dashboard.jsx:96-101 | two instants share the ISO date exactly when both lie between the same two UTC midnights |
| Dashboard.DailySales | src/pages/Dashboard.jsx:99-101 | the sales whose UTC date is today's |
| Dashboard.DailySalesExactly | src/pages/Dashboard.jsx:99-101 | today's sales are exactly those on today's UTC date, in order |
| Dashboard.UnitsSold | src/pages/Dashboard.jsx:107-109 | the units of today's sales summed |
| Dashboard.UnitsSoldIsSumOfQuantities | src/pages/Dashboard.jsx:107-109 | with every quantity present, the units sold are the sum of the quantities; a sale without items makes it throw |
| Dashboard.LowStock | src/pages/Dashboard.jsx:119-121 | the products strictly below their reorder point |
| Dashboard.LowStockExactly | src/pages/Dashboard.jsx:119-121 | low stock is exactly the products below their reorder point, in order |
| Dashboard.DayTotal | src/pages/Dashboard.jsx:127-130 | the total of the sales on local weekday d |
| Dashboard.Buckets | src/pages/Dashboard.jsx:125-130 | seven buckets, bucket d being the sum of the totals of the sales on weekday d |
| Dashboard.DayTotalStep | src/pages/Dashboard.jsx:127-130 | one more sale adds its total to its own weekday's bucket only |
| Dashboard.BucketsStep | src/pages/Dashboard.jsx:129 | one more sale bumps exactly its weekday's entry of the buckets |
| Dashboard.WeeklySales | src/pages/Dashboard.jsx:125-130 | the array loop computes the buckets |
| Dashboard.BucketsAddUpToTotal | src/pages/Dashboard.jsx:125-130 | the seven buckets add up to the total of every sale (both NaN when a total is missing) |
| Dashboard.CardTrends | src/pages/Dashboard.jsx:163-187 | the four trends the page passes (lines 163, 170, 179, 187) are the only ones it shows: three are drawn positive and the low-stock card's "-2" negative |
| Dashboard.LowStockCardByRole | src/pages/Dashboard.jsx:84-187 | the low-stock card is hidden from a cashier and shown to an admin, a manager, any other role and no user; whoever may add products sees it |
| Dashboard.DashboardScreen.constructor | src/pages/Dashboard.jsx:65-81 | all figures 0, lists empty |
| Dashboard.DashboardScreen.FetchDashboardData | src/pages/Dashboard.jsx:90-148 | sets today's total, order count and units; then the low stock and the weekday chart; a throw skips everything after it |
| InventoryPage.Matches | src/pages/Inventory.jsx:23-25 | the lower-cased name contains the lower-cased term |
| InventoryPage.FilteredProducts | src/pages/Inventory.jsx:23-25 | every listed product matches the search, and no more are listed than exist |
| InventoryPage.FilteredProductsExactly | src/pages/Inventory.jsx:23-25 | a product is listed exactly when its lower-cased name contains the lower-cased term; the store's order is kept |
| InventoryPage.EmptySearchShowsAll | src/pages/Inventory.jsx:23-25 | an empty term lists every product |
| InventoryPage.SearchIgnoresCase | src/pages/Inventory.jsx:23-25 | terms equal up to ASCII case list the same products |
| InventoryPage.LongerTermNarrows | src/pages/Inventory.jsx:23-25 | extending the term never brings back a hidden product |
| InventoryPage.ShowAddProduct | src/pages/Inventory.jsx:31 | the Add Product button is for admins and managers |
| InventoryPage.ShowActions | src/pages/Inventory.jsx:81 | the Actions column is for admins |
| InventoryPage.ControlsByRole | src/pages/Inventory.jsx:31-85 | admins see the Add Product button and the Actions column; managers the button only; anyone else neither |
| InventoryPage.PageBody | src/pages/Inventory.jsx:57-98 | loading wins over an error, a non-empty error over the table, which lists the filtered products |
| NavBar.Links | src/components/NavBar.jsx:39-114 | the links in order: Login and Register without a user; otherwise Dashboard, the role-gated links, and Sales |
| NavBar.LinksByRole | src/components/NavBar.jsx:39-114 | without a user, only Login and Register; with one, Dashboard first and Sales last; Manage Users for admins; Inventory for admins and managers; POS for admins and cashiers |
| NavBar.LinksForAdminAndUnknownRole | src/components/NavBar.jsx:42-77 | an admin sees all five links; any other role sees only Dashboard and Sales |
| NavBar.RoleLabel | src/components/NavBar.jsx:85 | the role with its first character upper-cased, or "N/A" for a missing or empty role |
| NavBar.RoleLabels | src/components/NavBar.jsx:85 | admin, manager and cashier show as Admin, Manager and Cashier |
| NavBar.HandleLogout | src/components/NavBar.jsx:16-21 | a confirmed logout clears the session and goes to /login; a declined one changes nothing |
| SideBar.Navigation | src/components/SideBar.jsx:35-44 | the list chosen by comparing the user's role with each role in turn, empty when none matches |
| SideBar.NavigationByRole | src/components/SideBar.jsx:13-44 | admins get Dashboard, Inventory, Sales, Users, Settings; managers Dashboard, Inventory, Users; cashiers POS; anyone else nothing |
| SideBar.IsActive | src/components/SideBar.jsx:57 | an entry is active when the path equals its href exactly |
| SideBar.ActiveEntries | src/components/SideBar.jsx:57 | an entry index is in the set exactly when the path equals its href |
| SideBar.ActiveEntryUnique | src/components/SideBar.jsx:56-57 | with distinct hrefs, at most one entry is active, and an entry's own href activates it alone |
| SideBar.AtMostOneActive | src/components/SideBar.jsx:13-57 | in every role's list, at most one entry is active for any path |
| SideBar.LookAsWritten | src/components/SideBar.jsx:63-74 | the link and icon classes as written: template literals with no substitution, the same for every entry and path |
| SideBar.HighlightIgnoresPath | src/components/SideBar.jsx:57-74 | on the dashboard path the active Dashboard entry and the inactive Inventory entry get the same classes |
| SideBar.IntendedLook | src/components/SideBar.jsx:63-74 | corrected classes: the active ones exactly when the entry is active, the inactive ones otherwise |
| SideBar.HighlightFollowsPath | src/components/SideBar.jsx:57-74 | with the corrected classes the highlighted entries are exactly the active ones, at most one per list, and an entry's own path highlights it alone |

## Left out

- HTTP, `fetch`, `axios`: requests are parameters. A reply is the backend's answer or an error message.
- Error payloads: the backend's error body (`error.response?.data`) is modelled as a string.
- The `Authorization` header and the user's token are not modelled.
- `localStorage`: it is the ghost field `AuthStore.stored`. JSON parsing of a corrupt entry, which would throw, is not modelled.
- JSON `null` and `undefined` are not told apart: both are `None`. Fields the backend might send as strings (totals as decimal text) are treated as numbers.
- Formatting is not modelled: `toFixed(2)`, `toLocaleString`, the page's `formatProfit`, and the currency prefixes.
- The totals are not turned into strings. So `totalProfit` holds the number that `toFixed(2)` would format.
- Memoisation by `createSelector` is not modelled; it does not change the value.
- The cart slice: `cartSlice` is not part of this model. Each action the screen dispatches is recorded in `PosScreen.cartDispatches`, and a cart is a value passed in.
- The cart line's `costPrice` comes from the cart slice. It is a field of `CartLine`.
- The toasts' text for a failed checkout (`error.message`) is not modelled. `HandleCheckout` returns what was thrown.
- The components' mount effects that only dispatch an existing thunk are not restated. The POS and inventory pages dispatch `fetchProducts` and the profit page `fetchSales`; those thunks are modelled on the stores.
- `handlePaymentAmountChange`, the POS product search box, `renderIcon` and the icon lookup are not modelled. They only copy input into state or choose an icon.
- The clock: "now" is a parameter, and `new Date().toISOString()` in the recorded sale is an integer timestamp.
- The local time zone: it is the `Calendar` parameter. The proofs about windows assume a calendar whose days follow each other in order.
- Date parsing of the selected date (`new Date(selectedDate)`) is a parameter `parseDate`, and a date that does not parse selects no sale. In the source an invalid selected date gives "Invalid Date" from `toDateString()`, which would match a sale whose own timestamp is invalid; timestamps are integers here, so no such sale exists.
- `Dashboard.FetchDashboardData`: the two requests are modelled as their answers, `None` for a failed request. The chart's colours and options are left out.
- `Pos.CalculateProfit`: the screen's profit display and the checkout's inline loop compute the same sum, and the model defines it once. The rendering of the display is not modelled.
- `SalesPage.Subtotal`: the `item.price.toFixed(2)` cell of the same row, which throws on a missing price, is not modelled.
- `SideBar.NavigationByRole`: the icons of the entries are not modelled.
- `InventoryPage.FilteredProducts`: only ASCII letters A–Z are lower-cased. `toLowerCase` folds every letter, so in the source "écl" also finds "Éclair", which the model does not capture.
- `NavBar.RoleLabel`: only an ASCII first letter is upper-cased. `toUpperCase` can change the length ("ß" becomes "SS"), so for a role that starts with a non-ASCII letter the source's label differs from the model's, and its length may differ too.
- `AuthSlice.Merge`: a patch field that is present but `undefined` or `null` overwrites the user's value under the spread. `UserPatch` has no way to say "present and empty", so such a patch is not modelled.
- The as-written selectors and the as-written write-back are what the pages use. The corrected definitions are stated and proved beside them.

## Findings

| source | as written | input that shows it | evidently intended | confidence | as-written member | corrected member |
|---|---|---|---|---|---|---|
| src/store/slices/salesSlice.js:72-83 | the week end is computed from the already-moved `today`, so the window ends on day d − 2·dow + 6 | any Thursday, Friday or Saturday: today's sales are outside "this week" | the week runs from Sunday 00:00 to Saturday 23:59:59.999 | high, not executed | SalesSlice.WeekWindowCoversTodayIff | SalesSlice.CalendarWeekWindow |
| src/pages/POS.jsx:119-130 | a new stock of 0 is rejected by the stock guard, and `removeProductFromInventory(...).unwrap()` is not a function on a plain action | a cart that sells the last unit of any product: the checkout ends in the catch after the sale was recorded, and the cart is not cleared | store the new stock, remove the sold-out product, and finish the checkout | high, not executed | Pos.SellingLastUnitThrows | Pos.IntendedLineStep |
| src/store/slices/salesSlice.js:48 | `!item.product_cost` treats a cost of 0 like a missing cost | an item sold twice at 100 with cost 0 adds 0 to the profit instead of 200 | only a missing field skips the item | medium, not executed | SalesSlice.ZeroCostItemEarnsNothing | SalesSlice.IntendedItemProfit |
| src/components/SideBar.jsx:63-74 | both class attributes are template literals that write `Ksh{` where a substitution `${` was meant, so the conditional on `isActive` is literal text | any path, such as "/" for an admin: the active Dashboard entry and the inactive Inventory entry get the same link and icon classes | the active entry gets the indigo classes and the others the grey ones | high, not executed | SideBar.HighlightIgnoresPath | SideBar.IntendedLook |
