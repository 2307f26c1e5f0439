# DreamPOS core, modelled in Dafny

DreamPOS is a point-of-sale front end for a WooCommerce shop. A cashier rings up
products in a browser cart. The server stores the resulting orders and pushes
them to the shop's REST API. The server also keeps a local cache of the shop's
products and customers, refreshed by paginated syncs. This project models the
core of that system and proves what each part promises.

- `Wrappers`, `Text`, `Collections`, `Money`: the shared vocabulary. This covers
  `Option`/`Result`, lower-casing and substring search, decimal text, and an
  insertion-ordered map that stands for a JavaScript `Map`. It also covers
  money as whole cents: `toString`, `parseFloat` and `Math.round` become
  `FormatCents`, `ParseCents` and `RoundHalfUp`.
- `Schema`: the records of the database schema (settings, orders, cached
  products and customers, sessions, stock adjustments), their insert shapes,
  and the row an insert produces under the table's column defaults.
- `ServerStorage`: the in-memory store `MemStorage`, a class with one
  insertion-ordered map per table. Each method updates the maps in place and
  is proved against functions on the old state.
- `Routes`: the server routes built on the store:
  - the bearer-token check
  - the masked settings read
  - order creation, with one immediate push upstream
  - the batch push of unsynced orders
  - the paginated product and customer syncs
  - the cache-miss fallback of the listings
  - the upstream → cache record mapping
  - the stock write-back
- `CartStore`: the browser cart store, a class whose methods keep the
  derived totals in step with the lines (10% tax, rounded to the cent).
- `Checkout`: the cart panel's handlers. These are the discount box, the
  quantity buttons, the customer picker and the checkout that sends the
  order and clears the cart.
- `BrowserCache`: the client's local-storage cache, with a time to live per
  entry and a single shared instance.
- `StockAdjustmentDialog`, `Inventory`, `ProductsGrid`, `BarcodeScanner`: the
  stock dialog, the inventory page's filters, badges and counts, the sales
  grid's badges and add-to-cart rule, and the scan box.

Calls to the shop's API, the clock, fresh ids and the browser's storage are
parameters: each operation receives the upstream outcome, `now` and the new id
it would have drawn.

The model follows the code wherever the code differs from what the schema's
column defaults, the code's comments and its names suggest:
- Tax is not clamped at zero: a discount above the subtotal gives a negative
  tax and total (`CartStore.DiscountAboveSubtotalGoesNegative`).
- `MemStorage` applies none of the table's column defaults
  (`ServerStorage.NewOrderIgnoresColumnDefaults`).
- A batch push overwrites `woocommerceOrderId` on every success.
- Nothing in the store enforces that `orderId` or a session token is unique; a second session with the same token replaces the first.
- The customer mapping of the sync and listing routes leaves `displayName`
  and `dateCreated` empty.
- The stock route only forwards the new quantity and records nothing about
  the stock before or after.
- The order insert schema requires `orderId`, but the order route only
  generates it after parsing and the cart never sends one, so as written the
  route rejects every checkout body the cart posts (see "## Left out").

## Model

| member | source | states |
|---|---|---|
| Text.ToLower | server/storage.ts:174 | lower-casing keeps the length and maps every character on its own, so a search on lower-cased text is a per-character comparison |
| Text.SplitNameRoundTrip | server/routes.ts:494-498 | splitting a customer name at its first space into first and last name loses nothing: the parts rejoin with one space to the name, and a name without a space is all first name |
| Text.NatToStringRoundTrip | client/src/pages/inventory.tsx:89-94 | the decimal text of a count reads back as that count |
| Text.IntToString | client/src/pages/inventory.tsx:93 | `n.toString()` reads back as `n`: its digits for `n >= 0`, a minus sign and the digits of `-n` otherwise |
| Text.NatToStringInjective | server/routes.ts:473-474 | different numbers never print the same |
| Collections.Filter | server/storage.ts:153-156 | `Array.filter` keeps exactly the elements that pass the test, and never more of them than there were |
| Collections.FilterIsSubsequence | server/storage.ts:173-179 | the kept elements are in their original order |
| Collections.FilterKeepsDistinct | server/storage.ts:153-156 | filtering a list without duplicates gives one without duplicates |
| Collections.Find | server/storage.ts:126-128 | `Array.find` returns the first element, in order, that passes the test, and finds nothing only when no element passes |
| Collections.SliceTo | server/storage.ts:158-160 | `slice(0, n)` is a prefix of length `min(n, length)` for `n >= 0`, and drops `-n` elements from the end for negative `n` |
| Collections.InsertDescSorted | server/storage.ts:130-138 | inserting one order into a newest-first list keeps it newest first |
| Collections.SortNewestFirst | server/storage.ts:130-138 | the sort by creation time is a permutation of its input and is newest first |
| Collections.SortNewestFirstStable | server/storage.ts:130-138 | the sort is stable: records with the same creation time come out in the order they were stored, as `Array.prototype.sort` must since ES2019 |
| Collections.InsertDescStable | server/storage.ts:130-138 | inserting one record keeps, among records with equal times, the order of the record followed by the list |
| Collections.JsMap.Get | server/storage.ts:122-124 | `map.get(k)` finds a value exactly for the keys stored, and it is the stored one |
| Collections.JsMap.Set | server/storage.ts:185-187 | `map.set(k, v)` keeps the key's place when the key is present and puts it last otherwise, and the map stays well formed |
| Collections.SetThenGet | server/storage.ts:185-187 | after `map.set(k, v)`, `k` reads `v` and every other key reads as before |
| Collections.JsMap.Delete | server/storage.ts:197-199 | `map.delete(k)` keeps the other keys in their order |
| Collections.DeleteThenGet | server/storage.ts:197-199 | after `map.delete(k)`, `k` reads nothing, every other key reads as before, and only `k` leaves the key order |
| Collections.JsMap.Values | server/storage.ts:154 | `map.values()` lists the stored values in key insertion order |
| Collections.SetEachFromEmpty | server/storage.ts:166-171 | after clearing a map and setting every record of a list by its key, the map holds exactly the keys of the list, each with the last record of that key |
| Collections.SetEachKeyedBy | server/storage.ts:166-171 | every entry of a map filled from a list is stored under its own record's key |
| Collections.ValuesMembership | server/storage.ts:154 | `Array.from(map.values())` lists exactly the stored records |
| Money.RoundHalfUp | client/src/hooks/use-woocommerce.ts:255-257 | `Math.round` of a fraction gives the integer nearest to it, with halves rounded up |
| Money.FormatCents | client/src/components/pos/cart.tsx:98-103 | `toString` of an amount prints a minus sign exactly for a negative amount, a decimal point exactly when the amount is not whole, and then one or two decimals with no trailing zero |
| Money.ParseCents | client/src/components/pos/cart.tsx:50 | `parseFloat` of empty text is NaN, and a parsed amount has the sign its text shows |
| Money.FormatParseRoundTrip | client/src/components/pos/cart.tsx:98-103 | an amount written with `toString` parses back with `parseFloat` to the same amount, negative amounts included |
| Money.UnsignedRoundTrip | client/src/components/pos/cart.tsx:98-103 | the unsigned text of a number of cents parses back to it |
| Schema.OrderRow | shared/schema.ts:25-55 | an order inserted through the table starts unsynced and without a shop id, and takes status "pending", discount "0" and tax "0" when the insert leaves them out |
| ServerStorage.NewOrderIgnoresColumnDefaults | server/storage.ts:99-120 | the store leaves status, discount and tax empty where the table would have filled in its defaults |
| ServerStorage.NewOrder | server/storage.ts:99-120 | a new order keeps every column of the insert (read back by `OrderInput`), gets the fresh id and the creation and update time, and starts unsynced without a shop id |
| ServerStorage.PatchOrder | server/storage.ts:140-151 | an update changes exactly the fields the patch gives, keeps every other field, and stamps the update time |
| ServerStorage.PatchProduct | server/storage.ts:189-195 | a cached-product update changes exactly the fields the patch gives and keeps the rest |
| ServerStorage.NewSettings | server/storage.ts:70-83 | a new settings record keeps every field of the insert (read back by `SettingsInput`) under the fresh id, with both times set to now |
| ServerStorage.PatchSettings | server/storage.ts:85-97 | a settings update takes each field the patch gives (URL, credentials, cache duration, auto refresh, permissions), keeps every other field, and stamps the update time |
| ServerStorage.NewSession | server/storage.ts:232-243 | a new session keeps every field of the insert but the role under the fresh id, and its role is the one given when non-empty, "cashier" otherwise |
| ServerStorage.PatchSession | server/storage.ts:254-265 | a session update takes the patched token, expiry and role and keeps every other field |
| ServerStorage.NewAdjustment | server/storage.ts:272-283 | a recorded adjustment keeps every field of the insert (read back by `AdjustmentInput`) and gets the fresh id and creation time |
| ServerStorage.MatchingProducts | server/storage.ts:173-179 | the product search returns, in store order, exactly the stored products whose name or SKU contains the lower-cased query |
| ServerStorage.MatchingCustomers | server/storage.ts:217-225 | the customer search returns, in store order, exactly the stored customers whose email, first, last or display name contains the lower-cased query |
| ServerStorage.OfProduct | server/storage.ts:287 | the adjustments of one product are exactly those recorded for it |
| ServerStorage.FirstWithOrderId | server/storage.ts:126-128 | the lookup by order number returns the first order, in order, with that number, or none when no order has it |
| ServerStorage.FirstWithSku | server/storage.ts:181-183 | the lookup by SKU returns the first product, in order, with that SKU, or none when no product has it |
| ServerStorage.FirstWithSessionId | server/storage.ts:255-256 | the lookup by session id returns the first session, in order, with that id, or none when no session has it |
| ServerStorage.MemStorage.constructor | server/storage.ts:57-63 | the store starts with every table empty |
| ServerStorage.MemStorage.GetPosSettings | server/storage.ts:66-68 | the settings read returns the first settings record stored, and nothing when there is none |
| ServerStorage.MemStorage.CreatePosSettings | server/storage.ts:70-83 | the new settings record is stored under its fresh id |
| ServerStorage.MemStorage.UpdatePosSettings | server/storage.ts:85-97 | an unknown id fails with "Settings not found" and changes nothing; a known one replaces that record with its patched form |
| ServerStorage.MemStorage.CreatePosOrder | server/storage.ts:99-120 | the new order is stored under its fresh id and returned |
| ServerStorage.MemStorage.GetPosOrder | server/storage.ts:122-124 | the read by id finds exactly the stored orders |
| ServerStorage.MemStorage.GetPosOrderByOrderId | server/storage.ts:126-128 | the read by order number returns the first stored order, in insertion order, with that number, and nothing exactly when no stored order has it |
| ServerStorage.MemStorage.GetAllPosOrders | server/storage.ts:130-138 | the order list holds `min(limit, count)` stored orders (limit 50 by default), newest first |
| ServerStorage.MemStorage.UpdatePosOrder | server/storage.ts:140-151 | an unknown id fails with "Order not found" and changes nothing; a known one replaces that order, in place, with its patched form |
| ServerStorage.MemStorage.GetUnsyncedOrders | server/storage.ts:153-156 | the unsynced list holds exactly the stored orders not yet pushed, in store order |
| ServerStorage.MemStorage.GetCachedProducts | server/storage.ts:158-160 | the product list is the first `limit` (default 100) cached products in insertion order |
| ServerStorage.MemStorage.GetCachedProduct | server/storage.ts:162-164 | the read by id finds exactly the cached products |
| ServerStorage.MemStorage.SetCachedProducts | server/storage.ts:166-171 | replacing the cache leaves exactly the given products, one per id, the last of each id winning |
| ServerStorage.MemStorage.SearchCachedProducts | server/storage.ts:173-179 | the search returns exactly the cached products matching the lower-cased query, in cache order |
| ServerStorage.MemStorage.GetCachedProductBySku | server/storage.ts:181-183 | the SKU read returns the first cached product, in insertion order, with that SKU, and nothing exactly when none has it |
| ServerStorage.MemStorage.SetCachedProduct | server/storage.ts:185-187 | one product is stored under its id |
| ServerStorage.MemStorage.UpdateCachedProduct | server/storage.ts:189-195 | an unknown id changes nothing; a known one takes the patched product in place |
| ServerStorage.MemStorage.DeleteCachedProduct | server/storage.ts:197-199 | the product is removed and every other one stays |
| ServerStorage.MemStorage.GetCachedCustomers | server/storage.ts:202-204 | the customer list is the first `limit` (default 100) cached customers in insertion order |
| ServerStorage.MemStorage.GetCachedCustomer | server/storage.ts:206-208 | the read by id finds exactly the cached customers |
| ServerStorage.MemStorage.SetCachedCustomers | server/storage.ts:210-215 | replacing the cache leaves exactly the given customers, one per id, the last of each id winning |
| ServerStorage.MemStorage.SearchCachedCustomers | server/storage.ts:217-225 | the search returns exactly the cached customers matching the lower-cased query, in cache order |
| ServerStorage.MemStorage.SetCachedCustomer | server/storage.ts:227-229 | one customer is stored under its id |
| ServerStorage.MemStorage.CreateUserSession | server/storage.ts:232-243 | the new session is stored under its token |
| ServerStorage.MemStorage.GetUserSession | server/storage.ts:245-252 | an unknown token finds nothing; an expired session is deleted and not returned; a live one is returned and kept |
| ServerStorage.MemStorage.UpdateUserSession | server/storage.ts:254-265 | an unknown session id fails with "Session not found"; a known session is moved from its old token to the token of its patched form |
| ServerStorage.MemStorage.DeleteUserSession | server/storage.ts:267-269 | the session with that token is removed and every other one stays |
| ServerStorage.MemStorage.RecordStockAdjustment | server/storage.ts:272-283 | the new adjustment is stored under its fresh id |
| ServerStorage.MemStorage.GetStockAdjustmentsByProduct | server/storage.ts:285-294 | the history holds at most `limit` (default 50) of the product's adjustments, newest first, and all of them when the limit allows |
| CartStore.NewLine | client/src/hooks/use-woocommerce.ts:184-192 | a product enters the cart as one unit at its parsed price |
| CartStore.TaxOf | client/src/hooks/use-woocommerce.ts:251-256 | the tax is a tenth of the discounted subtotal, rounded to the nearest cent |
| CartStore.TotalOf | client/src/hooks/use-woocommerce.ts:252-257 | the total is eleven tenths of the discounted subtotal, rounded to the nearest cent |
| CartStore.TotalIsBasePlusTax | client/src/hooks/use-woocommerce.ts:251-257 | the separately rounded total is always the discounted subtotal plus the rounded tax |
| CartStore.DiscountAboveSubtotalGoesNegative | client/src/hooks/use-woocommerce.ts:250-252 | a discount more than five cents above the subtotal makes the tax and the total negative |
| CartStore.LinesTotal | client/src/hooks/use-woocommerce.ts:249 | the sum of no lines is 0, and with no negative line subtotal the sum is non-negative and at least each line's subtotal |
| CartStore.ThirtyLessFiveExample | client/src/hooks/use-woocommerce.ts:247-259 | a single worked example, not a general property: a 30.00 cart with a 5.00 discount pays 2.50 tax and 27.50 in all |
| CartStore.Without | client/src/hooks/use-woocommerce.ts:199-203 | removing a product keeps exactly the other lines |
| CartStore.WithoutKeepsOrder | client/src/hooks/use-woocommerce.ts:199-203 | removing a product keeps the other lines in order and keeps ids distinct |
| CartStore.WithQuantity | client/src/hooks/use-woocommerce.ts:211-216 | setting a quantity rewrites only the lines of that product, with the new quantity and subtotal, and keeps every other line |
| CartStore.WithQuantityRewritesOneLine | client/src/hooks/use-woocommerce.ts:211-216 | in a cart with distinct ids exactly one line changes |
| CartStore.IndexOfId | client/src/hooks/use-woocommerce.ts:179 | the lookup finds the first line of the product, or reports that there is none |
| CartStore.Cart.constructor | client/src/hooks/use-woocommerce.ts:168-175 | the cart starts empty, with no customer and payment by cash |
| CartStore.Cart.CalculateTotals | client/src/hooks/use-woocommerce.ts:247-259 | the subtotal is the sum of the lines, and tax and total follow from it and the discount |
| CartStore.Cart.RemoveItem | client/src/hooks/use-woocommerce.ts:199-203 | the product's line goes, the others stay in order, and the totals are recomputed |
| CartStore.Cart.UpdateQuantity | client/src/hooks/use-woocommerce.ts:205-220 | a quantity of zero or less removes the line; any other quantity rewrites it; the totals are recomputed |
| CartStore.Cart.AddItem | client/src/hooks/use-woocommerce.ts:177-197 | a product already in the cart gains one unit; a new one is appended as a single unit; line ids stay distinct and the totals are recomputed |
| CartStore.Cart.SetDiscount | client/src/hooks/use-woocommerce.ts:222-225 | the discount is taken as given and the total follows it, the lines unchanged |
| CartStore.Cart.SetCustomer | client/src/hooks/use-woocommerce.ts:227-229 | the selected customer is replaced |
| CartStore.Cart.SetPaymentMethod | client/src/hooks/use-woocommerce.ts:231-233 | the payment method is replaced |
| CartStore.Cart.ClearCart | client/src/hooks/use-woocommerce.ts:235-245 | clearing empties the cart, zeroes every amount, drops the customer and returns to cash |
| Checkout.OrderFor | client/src/components/pos/cart.tsx:85-106 | the order has one line per cart line, always a customer name, the amount paid equal to the total, and the chosen payment method |
| Checkout.OrElse | client/src/components/pos/cart.tsx:86-88 | `value \|\| fallback` keeps a non-empty value and otherwise takes the fallback |
| Checkout.LinesOf | client/src/components/pos/cart.tsx:90-97 | the order has one line per cart line, in cart order |
| Checkout.WalkInOrder | client/src/components/pos/cart.tsx:85-89 | with no customer the order goes to "Walk-in Customer" without id or email, as completed |
| Checkout.SelectedCustomerOrder | client/src/components/pos/cart.tsx:85-89 | with a customer chosen the order carries that customer's id, name and email |
| Checkout.OrderAmountsRoundTrip | client/src/components/pos/cart.tsx:98-105 | every amount written into the order parses back to the cart's amount, the amount paid is the total, the parsed amounts still add up, and the order is sent completed, with change "0.00" and no receipt printed |
| Checkout.OrderLinesMatchCart | client/src/components/pos/cart.tsx:90-97 | the order's lines carry the cart's ids and quantities, and their subtotals add up to the cart's subtotal |
| Checkout.ApplyDiscount | client/src/components/pos/cart.tsx:49-56 | the discount box's text becomes the discount, 0 when it does not parse |
| Checkout.TypedDiscountIsApplied | client/src/components/pos/cart.tsx:49-51 | a discount typed the way amounts are printed is applied exactly |
| Checkout.HandleQuantityChange | client/src/components/pos/cart.tsx:58-61 | the quantity buttons never take a line below one: a quantity under one is ignored, so no line is removed this way |
| Checkout.HandleCustomerChange | client/src/components/pos/cart.tsx:63-70 | "walk-in" clears the customer; any other choice selects a placeholder customer with that id |
| Checkout.ProcessCheckout | client/src/components/pos/cart.tsx:72-128 | an empty cart sends nothing and stays; otherwise the order built from the cart is sent, and the cart is cleared exactly when the server accepts it: no lines, zero amounts, no customer and the payment method back to "cash" |
| BrowserCache.StorageKey | client/src/lib/storage.ts:18-22 | every cache key is stored under the `dreampos_` prefix |
| BrowserCache.StorageKeyInjective | client/src/lib/storage.ts:18-22 | distinct cache keys never share a storage slot |
| BrowserCache.Lookup | client/src/lib/storage.ts:31-50 | a read returns the stored data exactly when the entry exists and is not older than its time to live |
| BrowserCache.AfterLookup | client/src/lib/storage.ts:38-43 | a read deletes the entry it finds expired and nothing else |
| BrowserCache.Cleared | client/src/lib/storage.ts:60-71 | clearing keeps exactly the keys without the cache prefix |
| BrowserCache.WriteLeavesOtherKeys | client/src/lib/storage.ts:18-29 | writing one key changes no other key's read |
| BrowserCache.ExpiredStaysGone | client/src/lib/storage.ts:40-43 | once an expired entry has been read, later reads of it find nothing |
| BrowserCache.ClearedReadsNothing | client/src/lib/storage.ts:60-71 | after clearing, no cache key reads anything |
| BrowserCache.SettingsOutliveLists | client/src/lib/storage.ts:74-96 | a single scenario, not a general property: an hour after writing, the settings (kept a day) still read back and the product list (kept five minutes) does not |
| BrowserCache.LocalStorageCache.Set | client/src/lib/storage.ts:18-29 | the entry is written stamped with the current time and its time to live |
| BrowserCache.LocalStorageCache.Get | client/src/lib/storage.ts:31-50 | the read returns what `Lookup` says and leaves the storage as `AfterLookup` says |
| BrowserCache.LocalStorageCache.Remove | client/src/lib/storage.ts:52-58 | the key is removed and nothing else |
| BrowserCache.LocalStorageCache.Clear | client/src/lib/storage.ts:60-71 | visiting every key and removing the prefixed ones leaves the storage as `Cleared` says |
| BrowserCache.LocalStorageCache.CacheSettings | client/src/lib/storage.ts:90-92 | the settings are written with a one-day time to live |
| BrowserCache.LocalStorageCache.CacheProducts | client/src/lib/storage.ts:74-76 | the products are written with the five-minute default |
| BrowserCache.LocalStorageCache.GetCachedProducts | client/src/lib/storage.ts:78-80 | the product read is the generic read of the products key |
| BrowserCache.LocalStorageCache.CacheCustomers | client/src/lib/storage.ts:82-84 | the customers are written with the five-minute default |
| BrowserCache.LocalStorageCache.GetCachedCustomers | client/src/lib/storage.ts:86-88 | the customer read is the generic read of the customers key |
| BrowserCache.LocalStorageCache.GetCachedSettings | client/src/lib/storage.ts:94-96 | the settings read is the generic read of the settings key |
| BrowserCache.CacheRegistry.GetInstance | client/src/lib/storage.ts:11-16 | the first call creates the one cache object; every later call returns that same object |
| Routes.ToCachedProduct | server/routes.ts:596-618 | a product enters the cache with every upstream field it arrived with (read back through `UpstreamFields`), and its sync, creation and update times are all the sync time |
| Routes.ToCachedCustomer | server/routes.ts:375-389 | a customer enters the cache with id, email and names, and without display name or creation date |
| Routes.ToCachedProducts | server/routes.ts:596-618 | the mapping keeps the order and the number of products |
| Routes.ToCachedCustomers | server/routes.ts:375-389 | the mapping keeps the order and the number of customers |
| Routes.RequireAuth | server/routes.ts:80-95 | a request without a `Bearer ` header is refused and changes nothing; otherwise the token after the prefix is accepted exactly when it names a stored session that has not expired, the caller gets that session, and an expired session is deleted from the table while every other case leaves it as it was |
| Routes.MaskKey | server/routes.ts:161-165 | the consumer key is shown as a mask followed by its last four characters, and an empty key stays empty |
| Routes.MaskKeyRevealsOnlyLastFour | server/routes.ts:161-165 | two keys that end alike are shown alike, whatever else they hold |
| Routes.PublicSettings | server/routes.ts:161-165 | the settings read hides the secret entirely and masks the key, and changes no other field |
| Routes.GetSettings | server/routes.ts:154-170 | without settings the read fails with "Settings not found"; otherwise it returns the first settings record, masked |
| Routes.LineItems | server/routes.ts:499-503 | the order's line items are sent one per cart line, with product, quantity and the subtotal as text |
| Routes.LineItemTotalsRoundTrip | server/routes.ts:499-503 | each line total sent upstream parses back to that line's subtotal |
| Routes.UpstreamCustomerId | server/routes.ts:493 | the shop customer id is the order's, and 0 (guest) when there is none |
| Routes.BillingOf | server/routes.ts:494-498 | billing is sent exactly when the order has a non-empty email, and it carries that email; the first name holds no space, and with a space in the name the two halves rejoin to it, so the split is at the first space; an absent name or one without a space gives that name (or "") and an empty last name |
| Routes.CreatePayload | server/routes.ts:491-514 | the pushed order has status "processing", carries the order's lines, customer id and its `BillingOf` block, and records the POS order number and cashier as metadata |
| Routes.SyncPayload | server/routes.ts:746-760 | the batch push sends status "processing", the lines and customer id, no billing, and the POS order number as metadata |
| Routes.SyncPayloads | server/routes.ts:744-760 | the bodies of the batch push are one `SyncPayload` per order, in order |
| Routes.OrderIdFor | server/routes.ts:473-474 | an order number is "POS-" followed by decimal digits that read back as the creation millisecond |
| Routes.OrderIdsDifferAcrossMilliseconds | server/routes.ts:473-474 | orders created in different milliseconds get different order numbers |
| Routes.CreateOrder | server/routes.ts:464-533 | the order is stored unsynced under a new order number; with settings one push is tried and only its success marks it synced; the response is the order as first stored |
| Routes.ResultsFor | server/routes.ts:769-771 | the batch answer has one result per unsynced order, in order |
| Routes.ResultFor | server/routes.ts:769-771 | a result succeeds iff its push did; a success carries the upstream id and no error, a failure no id and the failure's message |
| Routes.PushedRecord | server/routes.ts:764-767 | a successful push marks the order synced with the shop's id; a failed one leaves it as it was |
| Routes.ApplyPush | server/routes.ts:762-767 | one push changes at most the pushed order and keeps the map's keys and order |
| Routes.AfterPushesAt | server/routes.ts:744-773 | after the batch, each pushed order is its pushed record and every other order is unchanged |
| Routes.UnsyncedIdsDistinct | server/routes.ts:729 | the unsynced orders of the store have distinct ids |
| Routes.BatchLeavesFailuresUnsynced | server/routes.ts:744-773 | after the batch, an order that was unsynced stays unsynced exactly when its push failed |
| Routes.BatchKeepsOthersSynced | server/routes.ts:744-773 | orders that were already synced are not touched by the batch |
| Routes.PushOne | server/routes.ts:745-772 | one loop step sends `SyncPayload` of its order, records its result and applies its push to the store |
| Routes.PushAll | server/routes.ts:742-773 | the loop sends `SyncPayloads` of the orders, and its results and store are those of all pushes in turn |
| Routes.SyncOrders | server/routes.ts:727-779 | without settings the batch fails and changes nothing; otherwise every unsynced order is sent once, in store order, as its `SyncPayload`, each gets its result (with the failure's message on a failure), and only successes are marked synced |
| Routes.PageAt | server/routes.ts:579-583 | pages past the last one the shop has are empty |
| Routes.FetchAllPages | server/routes.ts:574-594 | the loop collects what the page-by-page definition `CollectFrom` collects |
| Routes.CollectsUpToShortPage | server/routes.ts:578-594 | the loop gathers full pages and stops after the first page shorter than 100, taking its items and nothing after |
| Routes.FailureEndsSync | server/routes.ts:574-594 | a failed page request ends the sync with that failure, whatever the earlier pages held |
| Routes.SyncProducts | server/routes.ts:561-630 | without settings nothing changes; a failed page leaves the cache as it was; otherwise the cache is replaced by every product fetched, and their number is returned |
| Routes.SyncCustomers | server/routes.ts:633-693 | the customer counterpart of the product sync |
| Routes.CacheLimit | server/routes.ts:218-223 | the listing asks the cache for 20 records by default and for none when `per_page` is not a number |
| Routes.ListProducts | server/routes.ts:216-281 | the cache answers; only an empty answer with settings present asks the shop, whose products then replace the cache and are returned; a failed fallback returns nothing and keeps the cache |
| Routes.ListCustomers | server/routes.ts:349-403 | the customer counterpart of the product listing |
| Routes.StockPatch | server/routes.ts:336-340 | the cache takes the shop's stock quantity and status and the update time; name, SKU and price are left alone |
| Routes.UpdateStock | server/routes.ts:315-346 | without settings nothing is sent or changed; otherwise the new quantity is sent, and only a success updates the cached product's stock |
| StockAdjustmentDialog.KindText | client/src/components/inventory/stock-adjustment-dialog.tsx:28 | an adjustment is an "add" or a "subtract" |
| StockAdjustmentDialog.CurrentStock | client/src/components/inventory/stock-adjustment-dialog.tsx:43 | no product or no quantity shows a stock of 0 |
| StockAdjustmentDialog.NewStock | client/src/components/inventory/stock-adjustment-dialog.tsx:90-93 | the preview moves the current stock by the amount, up for "add" and down for "subtract" |
| StockAdjustmentDialog.OppositeAdjustmentRestores | client/src/components/inventory/stock-adjustment-dialog.tsx:90-93 | the opposite adjustment of the same amount restores the previewed stock |
| StockAdjustmentDialog.PositiveAdjustmentMoves | client/src/components/inventory/stock-adjustment-dialog.tsx:90-93 | a positive amount raises the preview when adding and lowers it when subtracting |
| StockAdjustmentDialog.PreviewCanGoNegative | client/src/components/inventory/stock-adjustment-dialog.tsx:90-93 | nothing stops the preview going below zero: subtracting more than the current stock always shows a negative stock |
| StockAdjustmentDialog.RequestFor | client/src/components/inventory/stock-adjustment-dialog.tsx:46-58 | a request is sent exactly for a positive amount and a chosen product, with that product, kind, amount and notes |
| StockAdjustmentDialog.Dialog.constructor | client/src/components/inventory/stock-adjustment-dialog.tsx:28-40 | the dialog opens on "add" with an amount of 0 and empty notes |
| StockAdjustmentDialog.Dialog.SetAdjustmentType | client/src/components/inventory/stock-adjustment-dialog.tsx:28 | the chosen kind is kept |
| StockAdjustmentDialog.Dialog.OnSubmit | client/src/components/inventory/stock-adjustment-dialog.tsx:59-88 | the submission sends `RequestFor` of the form; an accepted request closes the dialog and resets the form, and anything else leaves it as it was |
| Inventory.SearchAgreesWithServer | client/src/pages/inventory.tsx:56-69 | the page's search keeps exactly the products the server's cached-product search would |
| Inventory.FilteredProducts | client/src/pages/inventory.tsx:56-69 | the list shows, in order, exactly the loaded products that match the query and the tab, and nothing while loading |
| Inventory.StatsOf | client/src/pages/inventory.tsx:96-101 | the counts are 0 while loading; otherwise the total is the number of products and the low-stock, out-of-stock and in-stock counts are the numbers of products passing each test, so that in-stock and out-of-stock together never exceed the total |
| Inventory.TabsMatchStats | client/src/pages/inventory.tsx:56-101 | with no query, the all, low-stock and out-of-stock tabs each list as many products as their count says |
| Inventory.InStockTabListsEverything | client/src/pages/inventory.tsx:56-69 | the in-stock tab has no test of its own, so with no query it lists every product, and more than its in-stock count as soon as one product is not in stock |
| Inventory.BadgeOf | client/src/pages/inventory.tsx:71-87 | the badge says out of stock exactly for out-of-stock products, low stock for the others under 10 units, in stock otherwise |
| Inventory.StockLevel | client/src/pages/inventory.tsx:89-94 | a known quantity is shown as its decimal text, with a minus sign when negative, and never as a word; without one the level reads "Available" exactly for products in stock and "Unavailable" otherwise |
| ProductsGrid.QueryFor | client/src/components/pos/products-grid.tsx:25-31 | the grid asks for 50 products, narrowed to the chosen category unless it is "all" |
| ProductsGrid.BadgeOf | client/src/components/pos/products-grid.tsx:50-67 | the grid shows out of stock for the same products as the inventory page, otherwise "N left" when the quantity is known, urgent below 10 |
| ProductsGrid.BadgesAgreeWithInventory | client/src/components/pos/products-grid.tsx:50-67 | the grid's badge is red exactly when the inventory page's badge is not "In Stock" |
| ProductsGrid.NegativeQuantityShowsUrgent | client/src/components/pos/products-grid.tsx:56-61 | a negative quantity shows as an urgent "-N left" badge, not as out of stock |
| ProductsGrid.HandleAddToCart | client/src/components/pos/products-grid.tsx:33-48 | an out-of-stock product is refused and the cart stays; any other product is added as the cart store adds it |
| BarcodeScanner.OutcomeFor | client/src/components/pos/barcode-scanner.tsx:17-54 | a blank box does nothing; the barcode lookup wins; only when it fails is the search's first product taken; a failed search is reported as such |
| BarcodeScanner.NotFoundMeansBothEmpty | client/src/components/pos/barcode-scanner.tsx:17-54 | "not found" is reported only when the barcode lookup failed and the search returned no product |
| BarcodeScanner.Scanner.HandleSearch | client/src/components/pos/barcode-scanner.tsx:17-54 | a found product is added to the cart once and the box is emptied; in every other case box and cart stay |
| BarcodeScanner.Scanner.HandleKeyPress | client/src/components/pos/barcode-scanner.tsx:56-60 | only the Enter key starts a search |
| BarcodeScanner.Scanner.ToggleScanner | client/src/components/pos/barcode-scanner.tsx:62-69 | the scanning flag flips |

## Left out

- Floating point: prices and amounts are whole cents. Binary rounding error and `parseFloat` of text with more than two decimals, exponents or trailing garbage are not modelled. `Money.ParseCents` accepts only the text `toString` prints. The inputs where this changes a result are listed under `Checkout.ApplyDiscount`.
- `Text.ToLower`: only ASCII letters are folded; Unicode case mapping is not modelled.
- Request validation: the insert schemas' zod checks are not modelled. As written, the order insert schema requires `orderId`, the order route generates the order number only after parsing, and the body the cart posts (`Checkout.OrderFor`) has no `orderId`; so the route's parse rejects every checkout the cart sends and answers 400 "Failed to create order". `Routes.CreateOrder` models the route as if the parse had passed, with the order number the route generates.
- `Schema.OrderPatch`, `Schema.ProductPatch`, `Schema.SessionPatch`: narrower than the `Partial<…>` updates the store accepts. They carry only the fields the routes pass; an update that rewrites a record's `id` (or, for a session, any field besides role, token and expiry) is not modelled, and one rewriting `id` would store the record under a key that is not its own.
- Routes not modelled, because they only relay one upstream call or render pages:
  - login, logout and `me`
  - settings create, update and connection test
  - customer create
  - product by id
  - the orders list and order by id
  - the orders fetch
  - the barcode lookup route
  - the dashboard statistics
- The upstream REST API, the clock, `randomUUID` and the browser's `localStorage` are parameters. Each call receives its outcome, `now` and the fresh id, and uses one `now` throughout.
- `Routes.SyncOrders`: the shop's answer to the i-th push is a function of i, so the push order is fixed and the pushes do not depend on each other.
- `Routes.CreateOrder`: the cart sends the customer id as text, while the schema's column is an integer. The model keeps the schema's integer.
- `Routes.PageAt`: the shop's catalogue is a finite list of pages; a page past the end is empty.
- `BrowserCache.LocalStorageCache.Get`: JSON parse errors, quota errors and foreign values under a `dreampos_` key are not modelled. The caught exceptions only log.
- `BrowserCache.CacheData`: the cached products and customers are the cached record shapes, not the shop's raw records the client stores.
- `Schema`: `stockQuantity` absent and `null` are one `None`.
- `CartStore.Cart`: the React re-render, the query-cache invalidation and the toasts are not modelled.
- `Checkout.ApplyDiscount`: the discount box is read with `ParseCentsOrZero`, not `parseFloat`. They disagree on text a cashier can type: ".5", "10.", " 5", "+5" and "5abc" give 0 here, where `parseFloat` gives 0.5, 10, 5, 5 and 5. Text with more than two decimals or an exponent also gives 0 here.
- `Checkout.ProcessCheckout`: the `isProcessing` flag and the toasts are not modelled. Holding an order only shows a toast and is not modelled.
- `StockAdjustmentDialog.Dialog.OnSubmit`: the posted adjustment route is not among the server routes, so only what the dialog sends is modelled.
- `BarcodeScanner.Scanner`: focusing the input and the window-wide Enter listener are not modelled. That listener calls the same search as `HandleKeyPress`. As the text reads, one Enter typed into the focused box reaches both the box's own key handler and the window listener, so the search would run twice and a found product's quantity would rise by 2 instead of 1. The model runs the search once per Enter.
