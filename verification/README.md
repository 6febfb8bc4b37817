# bot-order storefront core in Dafny

This project models the decision logic of the bot-order Discord storefront:
- users top up a balance through Midtrans payment notifications;
- they buy packages of redeem codes;
- the bot delivers the codes by direct message, file or public channel.

Storage is modelled as one immutable `Store` record with four parts:
- balances by user;
- stock items, whose id is their index;
- orders, whose id is their index;
- top-up rows by order id.

Every operation is a pure transition on that record, except three methods that carry loop invariants:
- `Stock.AddBulkCodes`;
- `Orders.ProcessPendingOrders`;
- `Delivery.DeliverWithRetry`.

Modules, following the program's files:

| module | file | covers |
|---|---|---|
| `Wrappers` | `wrappers.dfy` | `Option` |
| `Text` | `text.dfy` | the Python string built-ins the code relies on: `split`, `join`, `strip`, `int()`, `str()`, negative slicing |
| `Config` | `config.dfy` | `config.py`: package table, `calculate_price`, `mask_sensitive`, `validate_config` |
| `Store` | `store.dfy` | the storage primitives the core calls (see below) |
| `Stock` | `stock.dfy` | `stock_manager.py`: code validation, single, bulk and text ingestion, per-type summary, detailed statistics, low-stock alert |
| `Orders` | `orders.dfy` | `order_manager.py`: validation, creation, processing, cancellation, retry, the pending-order sweep |
| `Webhook` | `webhook.dfy` | `webhook_server.py`: the notification endpoint and `handle_payment_success` |
| `Delivery` | `delivery.dfy` | `delivery_handler.py`: the DM length fallback, `smart_delivery`, `deliver_with_retry` |
| `Trigger` | `trigger.dfy` | `trigger.py`'s conventions: signature input, default top-up id, the three payload kinds, `extract_info_from_order_id` |

The `database` module is not part of this model.
Its primitives are written as small reference definitions in `Store`, with the narrowest contract their call sites rely on:
- `deduct_balance` refuses, with no change, when the funds are short;
- `add_balance` credits only positive amounts and otherwise returns nothing;
- `reserve_stock_codes` claims free items of one code type;
- `update_topup_status` does nothing when the row is missing;
- `create_topup` upserts a pending row.

Whatever the storage or the outside world decides is passed in as a parameter:
- whether an insert succeeds;
- the order number;
- which free items a reservation picks (a shorter list models items lost to a concurrent buyer);
- the delivery handler's outcome;
- the outcome of each Discord send in each delivery attempt;
- the encryption function;
- the SHA-512 digest.

## Model

| member | source | states |
|---|---|---|
| Config.ParseKey | order_bot/config.py:48-54 | a package key is recognised exactly when it is one of the five table keys |
| Config.GetPackageInfo | order_bot/config.py:286-288 | the lookup succeeds exactly for a table key; the entry's price is the configured price under the same key; its quantity is between 1 and 50 |
| Config.ByQuantityDesc | order_bot/config.py:293 | the scan order holds exactly the five table entries, strictly by descending quantity |
| Config.FirstFitting | order_bot/config.py:293-295 | the result is the first entry in scan order whose quantity fits the request, every entry before it being larger; nothing exactly when no entry fits |
| Config.FitByRange | order_bot/config.py:293-295 | scanning the table largest first for a request of at least 1 stops at the package its quantity range picks; below 1 it finds nothing |
| Config.CalculatePrice | order_bot/config.py:290-298 | 1-4 codes cost the 1-code price, 5-9 the 5-code price, 10-24 the 10-code price, 25-49 the 25-code price, 50 and more the 50-code price; only a request below 1 is priced `price_1 * quantity` |
| Config.CalculatePriceBestFit | order_bot/config.py:290-298 | for a request of at least 1, the price is that of the largest package not exceeding the request; the per-code fallback `price_1 * quantity` is reached exactly for requests below 1 |
| Config.BestKeyIsBestFit | order_bot/config.py:293-295 | the range-picked package is the largest one that fits the request |
| Config.MaskSensitive | order_bot/config.py:300-311 | the text is returned unchanged when masking is off; with show count n >= 1 and a text longer than 2n, the result is its first and last n characters around four stars; with show count 0 and a non-empty text, it is four stars followed by the whole text |
| Config.MaskIntendedShape | order_bot/config.py:300-311 | the corrected masking is the identity when masking is off or the text is at most `2*show` long; otherwise it is the first and last `show` characters around four stars, `2*show + 4` long |
| Config.MaskAgreesForPositiveShow | order_bot/config.py:311 | for a positive show count, the code as written and the corrected masking agree |
| Config.MaskZeroShowLeaks | order_bot/config.py:311 | with show 0 and masking on, the code as written returns four stars followed by the whole secret; the corrected masking returns only the stars |
| Config.MarkedErrors | order_bot/config.py:171-184 | every blocking error starts with the cross mark, and there is one exactly when some blocking check fires |
| Config.ValidateConfig | order_bot/config.py:166-217 | start-up is refused exactly when some error carries the cross mark, which is exactly for a placeholder Discord token, a placeholder Midtrans server key, PostgreSQL without a database URL, or a database type other than sqlite and postgresql |
| Config.CrossMarkBlocking | order_bot/config.py:171-217 | the error list carries a cross mark exactly for the four blocking conditions; the channel warning, listed among the errors, carries none |
| Config.WarningsNeverBlock | order_bot/config.py:186-199 | changing the public channel id, the prices or the encryption key never changes whether start-up is refused |
| Store.DeductBalance | order_bot/order_manager.py:130-138 | the debit succeeds exactly when the balance covers the amount; a refused debit changes nothing; a debit lowers only that user's balance, by exactly the amount |
| Store.AddBalance | order_bot/webhook_server.py:171-200 | a credit happens exactly for a positive amount; it raises that user's balance by exactly the amount; every other balance and every table stay as they were |
| Store.GetOrder | order_bot/order_manager.py:223-229 | an order is found exactly when its id exists, and it is that order |
| Store.UpdateOrderStatus | order_bot/order_manager.py:243-297 | only the named order's status and, when given, delivery status change |
| Store.ReserveFacts | order_bot/order_manager.py:162-174 | a reservation claims at most `quantity` distinct items, each free and of the requested type before, and marks them reserved for the order; every other item is unchanged; the free count drops by the number claimed |
| Store.CountFree | order_bot/order_manager.py:66 | the free count of a type is at most the stock size, and zero exactly when no item of that type is free |
| Store.Reserve | order_bot/order_manager.py:162-163 | the table keeps its size; at most `quantity` items are claimed; a reservation that comes up short has claimed every candidate that was free |
| Store.ReservedCodes | order_bot/order_manager.py:240-243 | an item is listed exactly when it is reserved for the order; the list is empty exactly when nothing is reserved for it |
| Store.MarkCodesAsUsed | order_bot/order_manager.py:283 | exactly the listed items become unavailable and used by the buyer |
| Store.ReleaseReservation | order_bot/order_manager.py:358-374 | exactly the items reserved for the order lose their reservation; nothing else changes |
| Store.AddStockCode | order_bot/stock_manager.py:115-120 | the new row is appended at the end of the stock table, available and unreserved, and its id is the old table size; balances, orders and top-ups are untouched |
| Store.CreateTopup | order_bot/webhook_server.py:161-168 | the top-up row for the order id is upserted as pending with the given user, amount, payment type and transaction id; other rows are untouched |
| Store.UpdateTopupStatus | order_bot/webhook_server.py:86-91 | only an existing row's status changes; a missing row leaves the table as it was |
| Stock.ValidateStockCode | order_bot/stock_manager.py:592-613 | a code is valid exactly when its stripped length is between 5 and 500; empty exactly when it strips to nothing; too short exactly for 1-4 characters; too long exactly above 500 |
| Stock.AcceptsExactly | order_bot/stock_manager.py:91-123 | a single code is accepted exactly when its stripped length is at least 5 and the insert succeeds |
| Stock.AddSingleCode | order_bot/stock_manager.py:82-141 | success exactly for a stripped code of at least 5 characters with a successful insert; success appends exactly one row holding the stripped code and returns its id; a refusal changes nothing and names its reason: "Empty code" exactly for a blank code, "Code too short" exactly for a stripped length of 1 to 4, and "Failed to add code to database" exactly for a long-enough code whose insert fails |
| Stock.RefusalReason | order_bot/stock_manager.py:89-133 | the reason `add_single_code` refuses a code: empty exactly for a blank stripped code, too short exactly for a stripped length of 1 to 4, a database failure exactly for a long-enough code whose insert fails, and none otherwise |
| Stock.AddIgnoresUpperBound | order_bot/stock_manager.py:91-104 | the single-code path refuses only what the validator calls empty or too short; a code the validator calls too long is still stored |
| Stock.AddedCodeIsFree | order_bot/stock_manager.py:115-123 | a stored code adds exactly one to the free count of its type |
| Stock.BulkErrors | order_bot/stock_manager.py:163-201 | the errors the bulk loop collects are exactly the refused lines, in input order |
| Stock.BulkStored | order_bot/stock_manager.py:163-201 | after the bulk loop the stock is the old stock followed by the stored rows of the accepted inputs, in input order |
| Stock.RefusedLinesSound | order_bot/stock_manager.py:171-194 | every reported error names, by 1-based line number, an input the single-code path refuses, with its masked text and reason; line numbers strictly increase |
| Stock.RefusedLinesComplete | order_bot/stock_manager.py:171-194 | every refused input is reported |
| Stock.AddBulkCodes | order_bot/stock_manager.py:143-211 | `added + failed` is the number of inputs; `success` holds exactly when nothing failed; the new ids are consecutive from the old table size; the stock becomes the old stock followed by the stored rows of exactly the accepted inputs, in order, each free; the error list is exactly the refused lines; balances, orders and top-ups are untouched |
| Stock.ParseCodeLines | order_bot/stock_manager.py:227-237 | every kept code is stripped, non-empty and does not start with `#`; every line of the stripped upload that is neither blank nor a comment is kept, as its stripped form |
| Stock.KeepCodes | order_bot/stock_manager.py:230-237 | the kept codes are clean, and every line that is neither blank nor a comment contributes its stripped form |
| Stock.KeepCodesInOrder | order_bot/stock_manager.py:230-237 | filtering works line by line and keeps order: the codes of two blocks are those of the first followed by those of the second; one line contributes its stripped form exactly when it is neither blank nor a comment |
| Stock.ParseJoinedCodes | order_bot/stock_manager.py:227-233 | joining clean codes with newlines and parsing them back gives the same codes |
| Stock.AddCodesFromText | order_bot/stock_manager.py:213-259 | text with no usable line gives failure, zero counts and "No valid codes found", with nothing stored; otherwise `success` holds exactly when nothing failed, the stock grows by exactly the stored rows of the accepted codes, and the errors are the refused lines shown through the configured `mask_sensitive` |
| Stock.TextUploadErrorsShowCodes | order_bot/stock_manager.py:171-180 | with masking on and a show count of 0, every refused code of an upload is reported in full behind four stars |
| Stock.TallyBounds | order_bot/stock_manager.py:409-430 | the counts are non-negative; available plus reserved, and available plus used, are each at most the total; every item is available, reserved or used |
| Stock.StockSummary | order_bot/stock_manager.py:398-455 | the summary has a row exactly for each code type in stock, and each row counts that type's items |
| Stock.TypesOf | order_bot/stock_manager.py:418 | the grouping lists each code type in stock exactly once |
| Stock.SummaryTotals | order_bot/stock_manager.py:467-470 | summing the per-type rows gives the counts over the whole stock |
| Stock.GetDetailedStats | order_bot/stock_manager.py:457-482 | `by_type` is the summary, the totals are the whole-stock counts, the status is healthy exactly when more is available than the threshold, and `low_stock` holds exactly when less is available |
| Stock.StatusAtThreshold | order_bot/stock_manager.py:481-482 | at exactly the threshold the status is "low" while `low_stock` is false |
| Stock.CountFreeIsAvailable | order_bot/stock_manager.py:512 | the free count that reservations and alerts use is the summary's "available" count for that type |
| Stock.CheckStockAlert | order_bot/stock_manager.py:504-528 | an alert fires exactly when alerts are enabled and fewer codes than the threshold are available; a message comes exactly with an alert; the available count and the threshold are echoed |
| Orders.ValidateOrderRequest | order_bot/order_manager.py:24-94 | an unknown package is reported exactly when the lookup fails; a too-large package reports its quantity; a shortfall reports the package price as required, the current balance, and their positive difference; short stock reports the package quantity and the free count; a valid request carries the package quantity and price, the balance and the free count, and satisfies every check |
| Orders.ValidationOrder | order_bot/order_manager.py:33-86 | a request is valid exactly when the package exists, is within the ceiling, is affordable and is in stock; the ceiling check comes before the balance check, and the balance check before the stock check, whose failure reports the package quantity and the free count |
| Orders.CreateNewOrder | order_bot/order_manager.py:100-199 | a rejected request or a refused debit changes nothing; a failed insert or a short reservation restores the balance; a short reservation leaves the new order failed/stock_unavailable; success debits exactly the package price, appends the row (user, order number, package, package quantity, price, payment method, pending, awaiting delivery) and reserves exactly the package quantity of distinct items for it, each of which was free before; in both the short and the successful case, only the claimed items change in the stock table; other balances and top-ups are untouched and existing orders are kept |
| Orders.PartialReservationLeaks | order_bot/order_manager.py:162-174 | after a short reservation the items that were claimed stay reserved for the failed order, and the free pool shrinks by their number |
| Orders.ProcessOrder | order_bot/order_manager.py:205-313 | an unknown order, or one already completed, is answered with no change; delivery is reported exactly for completed orders and fresh successful deliveries; only the order's status fields and the items reserved for it can change: other orders and items, balances and top-ups stay as they were |
| Orders.ProcessDeliveryOutcomes | order_bot/order_manager.py:259-305 | without a handler or with auto-delivery off, the items stay untouched and the order awaits manual delivery; on success exactly the reserved items become used and the order is completed/delivered; on failure or an exception the items stay, the order is pending/delivery_failed and a retry is possible |
| Orders.ProcessWithoutCodesFails | order_bot/order_manager.py:240-248 | an order with nothing reserved becomes failed/no_codes, whatever the handler |
| Orders.CancelOrder | order_bot/order_manager.py:319-406 | it is refused with no change exactly when cancellation is disabled or the order is unknown, completed or cancelled; otherwise exactly the order's reservations are cleared, `total_price` is refunded exactly when refund, ENABLE_REFUND and balance payment all hold and the price is positive, and the order becomes cancelled |
| Orders.FailedOrderRefundedTwice | order_bot/order_manager.py:378-383 | an order that failed for short stock was refunded on creation, and cancelling it refunds it again: the buyer gains the price |
| Orders.CancelledOrderOverwritten | order_bot/order_manager.py:232-248 | processing a cancelled order rewrites it to failed/no_codes |
| Orders.RetryOrderDelivery | order_bot/order_manager.py:412-443 | an unknown order or a completed order is answered without change; any other order is processed again |
| Orders.CompletedIsTerminal | order_bot/order_manager.py:232-237 | processing, retrying and cancelling a completed order all leave the store as it was, and the cancellation is refused |
| Orders.SweepableFrom | order_bot/order_manager.py:574-590 | exactly the pending, not-yet-delivered orders, in increasing id order |
| Orders.SelectPending | order_bot/order_manager.py:574-590 | at most `max_orders` sweepable orders, in id order; any sweepable order left out comes after every one picked |
| Orders.SelectPendingOldestFirst | order_bot/order_manager.py:574-590 | when creation times never decrease with id, the picked orders are oldest first and every sweepable order left behind was created no earlier than any picked one |
| Orders.CreateKeepsCreationOrder | order_bot/order_manager.py:140-146 | creating an order at a time no earlier than the last one keeps creation times non-decreasing in id, whatever the outcome |
| Orders.ProcessKeepsCreationOrder | order_bot/order_manager.py:232-305 | processing an order never changes a creation time |
| Orders.RunBatchNext | order_bot/order_manager.py:594-606 | the sweep processes the selected orders one after another on the evolving store |
| Orders.ProcessPendingOrders | order_bot/order_manager.py:560-626 | it processes exactly the selected orders in order; `processed == success + failed`; success counts exactly the results that are successful and delivered |
| Webhook.IdUser | order_bot/webhook_server.py:120-130 | a user is read exactly when the id has at least three dash-separated pieces and the second parses as an integer |
| Webhook.HandlePaymentSuccess | order_bot/webhook_server.py:108-211 | a malformed id is refused with no change; a non-TOPUP id only marks its row success; a top-up already marked success changes nothing and is reported as handled; otherwise the row is upserted with the parsed user, the amount, the payment type (`qris` by default) and the transaction id, that user gains exactly the amount when it is positive, and the row ends success, or failed when the credit is refused; no other balance and no other top-up row changes |
| Webhook.MidtransWebhook | order_bot/webhook_server.py:31-106 | 400 exactly for a missing body or a rejected notification; an unreadable amount gives a 200 error with no change; "success" runs `handle_payment_success` with the parsed amount; "pending" and "failed" only set the top-up status; any other status changes nothing |
| Webhook.CreditOnce | order_bot/webhook_server.py:139-175 | the second of two back-to-back success notifications changes no balance, so together they credit at most once |
| Webhook.RepeatedNotificationCreditsOnce | order_bot/webhook_server.py:72-91 | the same success notification delivered twice to the endpoint credits its amount at most once |
| Webhook.SuccessFailedSuccessCreditsTwice | order_bot/webhook_server.py:86-175 | the notification sequence success, failed, success credits the same top-up twice |
| Webhook.TopupIdUser | order_bot/webhook_server.py:120-133 | a `TOPUP-<user>-<timestamp>` id with a dash-free timestamp yields that user and counts as a top-up |
| Delivery.Quoted | order_bot/delivery_handler.py:55 | each code is shown in backticks, in order |
| Delivery.CodeListLength | order_bot/delivery_handler.py:55 | the DM code list is as long as the quoted codes plus one newline between each two |
| Delivery.TenLongCodesOverflow | order_bot/delivery_handler.py:55-60 | ten codes of 400 characters, well within the accepted lengths, already exceed the 4000-character limit |
| Delivery.DeliverViaFile | order_bot/delivery_handler.py:187-267 | method "file"; success exactly when the file sent by DM goes out |
| Delivery.DeliverViaChannel | order_bot/delivery_handler.py:104-185 | method "channel"; success exactly when the channel send goes out |
| Delivery.DeliverViaDm | order_bot/delivery_handler.py:21-102 | a failed user lookup fails the delivery as "dm" with that error; otherwise a code list over 4000 characters is delivered as a file instead, and a shorter one by the DM's own outcome, with method "dm" |
| Delivery.SmartDelivery | order_bot/delivery_handler.py:273-310 | a DM is tried only for at most 10 codes; it then falls back to a file by DM, then the channel; the first success is returned; the channel is used exactly when both earlier routes failed, and its result is returned as it is; overall success holds exactly when one route succeeded |
| Delivery.Attempt | order_bot/delivery_handler.py:341-353 | DELIVERY_METHOD `dm`, `channel` and `file` choose that route; anything else means smart delivery |
| Delivery.BackoffLinear | order_bot/delivery_handler.py:366-369 | the wait after failed attempt k is `5k` seconds |
| Delivery.DeliverWithRetry | order_bot/delivery_handler.py:316-380 | with no attempt allowed the result is `Unbound`, where the source raises; otherwise delivery stops at the first successful attempt and reports its index and method, every earlier attempt having failed; when all `max_attempts` attempts fail it reports that count, the last error and the configured method; it waits `5k` seconds after each failed attempt k except the last |
| Trigger.SignatureInput | order_bot/trigger.py:35-40 | the signature input is the order id, status code, gross amount and server key, concatenated in that order |
| Trigger.GenerateSignature | order_bot/trigger.py:35-41 | the signature is the digest of order id, status code, gross amount and server key run together |
| Trigger.SignatureIgnoresFieldBoundary | order_bot/trigger.py:35-41 | moving a character across the boundary between order id and status code leaves the signature unchanged |
| Trigger.DefaultOrderId | order_bot/trigger.py:51-53 | the default id starts with `TOPUP-`; for a non-negative user and a dash-free timestamp it splits back into `TOPUP`, the user and the timestamp; for a negative user its second piece is empty |
| Trigger.CreatePayload | order_bot/trigger.py:47-138 | a missing or empty order id becomes `TOPUP-<user>-<timestamp>`; the (code, status) pair is 200/settlement, 201/pending or 202/deny; the amount is written as `str(amount)` and reads back as the given integer; the transaction id is `test-<now>`; the signature covers the payload's own order id, status code and amount |
| Trigger.ParseIntToString | order_bot/trigger.py:56 | `int(str(amount))` is `amount` for every integer |
| Trigger.ExtractInfoFromOrderId | order_bot/trigger.py:197-215 | valid exactly when there are at least three dash pieces and the second parses as an integer; it then yields that integer and the third piece, and otherwise nothing |
| Trigger.ExtractAgreesWithWebhook | order_bot/trigger.py:197-215 | the client's parser and the webhook's read the same user from any order id |
| Trigger.ExtractDefaultOrderId | order_bot/trigger.py:51-53 | the default id of a non-negative user and a dash-free timestamp parses back to that user and timestamp |
| Trigger.NegativeUserIdLost | order_bot/trigger.py:53 | for a negative user the default id does not parse: the minus sign becomes a separator |
| Text.SplitJoin | order_bot/webhook_server.py:120 | splitting pieces joined by a separator they do not contain gives the pieces back |
| Text.StripIdempotent | order_bot/stock_manager.py:91 | stripping twice is stripping once |
| Text.ParseInt | order_bot/webhook_server.py:72 | accepted text ends in a digit once stripped; a negative value comes only from a leading minus; a bare run of ASCII digits reads as its decimal value |
| Text.ParseNatToString | order_bot/trigger.py:56 | `int(str(n))` is `n` for every natural number |

## Left out

- The `database` module is not part of this model. Its primitives are reference definitions (see above). SQL text, the PostgreSQL/SQLite branches and transactions are not modelled.
- The payment-gateway module (`parse_webhook_notification`, `verify_signature`) is not part of this model. Its verdict arrives as an already-parsed `Notification`. Its `status` field is the gateway's normalised status.
- Concurrency is not modelled. This covers the webhook thread racing the bot loop and the non-atomic check-then-credit in `handle_payment_success`. Everything is one sequential actor. A shorter reservation `picks` list stands in for items lost to concurrent buyers.
- Async I/O, Discord and HTTP are left out. The Flask app, `run_server`, the health and index endpoints, `send_webhook`, `check_webhook_health`, the tests and `main` of `trigger.py`, and `notify_*` are not modelled. `asyncio.sleep` is recorded as the list of waits only.
- Discord calls become an oracle. Within one delivery attempt, all calls over the same route have the same outcome. The user lookup of `deliver_via_dm` is its own call (`FetchUser`); the lookup inside a file sent by DM is folded into that send. "Channel not found" folds into a failed channel send with that message.
- Delivery.SmartDelivery: the `except discord.Forbidden` around the file route and the outer `'auto'` error result are not modelled. The inner delivery functions catch every exception themselves, so neither path can be reached.
- `record_delivery`, `get_delivery_history`, logging, embeds and time formatting (`format_wib_*`, `strftime`) are not modelled. They only write logs or build display text.
- Trigger.GenerateSignature: SHA-512 is a parameter (`Digest`). Only its input is modelled.
- Trigger.CreatePayload: the transaction time, settlement time, merchant id, fraud status, currency and status message are left out. They are constant or clock-derived decoration. The clock is a parameter.
- Stock encryption (`StockEncryption`, Fernet/PBKDF2) is a parameter `encrypt`. It applies only when encryption is enabled.
- Stock.AddBulkCodes: it takes the error-masking function as a parameter. `add_codes_from_text` passes the configured `mask_sensitive` as written, so with a show count of 0 a refused code is reported in full (see Findings).
- Stock ids and order ids are list indices and start at 0. The database's ids start at 1, so neither the source's `if stock_id:` test in `add_single_code` nor its `if not order_id:` test in `create_new_order` ever meets a falsy id. The model reads each insert's success from a parameter instead: `insertOk` for a stock row, `CreateOracle.insertOk` for an order row.
- Floating point is left out. `utilization_rate` is not modelled.
- `get_order_statistics`, `cleanup_unreserved_old_codes`, `check_duplicate_code`, `export_available_codes`, `get_stock_codes` and `get_available_codes` are left out. They are database queries and reports outside the order, stock and top-up transitions.
- The exception handlers of `validate_order_request`, `create_new_order`, `process_order`, `cancel_order`, `retry_order_delivery`, `process_pending_orders`, `add_single_code`, `add_bulk_codes`, `add_codes_from_text`, `get_stock_summary`, `get_detailed_stock_stats`, `check_stock_alert` and `handle_payment_success` are not modelled. Each catches failures of the storage layer, which the reference definitions never raise. Two raised exceptions are modelled (the webhook's other exception paths are on the `Webhook.MidtransWebhook:` line below):
  - the delivery handler raising (`Raised`);
  - `int()` rejecting the gross amount (a 200 error reply).
- Text.ParseInt: `int()` is modelled for ASCII digits only. Python also accepts the decimal digits of other scripts (Unicode category Nd, such as the Arabic-Indic digits), which the model refuses. Whitespace is Python's full set, Unicode spaces included. Surrounding whitespace, an optional sign and single underscores between digits are accepted.
- Webhook.MidtransWebhook: the body is modelled as a parsed notification or none, so two inputs that raise inside the endpoint's `try` are not modelled. A request body that is not JSON makes `request.get_json()` raise. A truthy JSON value that is not an object, such as `[1]` or `"x"`, fails at `notification.get`. The source answers both with the 200 "Internal server error" reply and changes nothing, not with 400. A falsy JSON value such as `{}` or `[]` is the model's missing body and gets 400.
- Webhook.MidtransWebhook: a decimal amount such as "10000.00" is refused by `int()`, so it gives the 200 error reply. Whether the gateway ever hands one over depends on the unseen parser.
- Orders.SelectPending: the query orders by `created_at`, and the model picks in id order. The two agree whenever creation times never decrease with id (`Orders.SelectPendingOldestFirst`). The model's transitions keep that true for a clock that never runs backwards (`Orders.CreateKeepsCreationOrder`). Ties in `created_at`, which the database may return in any order, are not modelled.
- Orders.ValidateOrderRequest: the available count is the free count of the default code type "redfinger". This matches `get_available_stock_count()` called with its default argument.
- Delivery.DeliverWithRetry: with `max_attempts <= 0` the source reads an unbound variable and raises. The model returns `Unbound` instead.
- The `print_config` display and the configuration's environment reading are left out. `Config.Defaults` holds the documented default values.

## Findings

| source | as written | input that shows it | evidently intended | confidence | as-written member | corrected member |
|---|---|---|---|---|---|---|
| order_bot/config.py:311 | `text[-show:]` with `show == 0` is the whole text, so the result is `"****" + text` | masking enabled, `mask_sensitive("SECRETCODE", 0)` gives `"****SECRETCODE"` | show nothing at either end: `"****"` | not executed | Config.MaskZeroShowLeaks (about Config.MaskSensitive); Stock.TextUploadErrorsShowCodes (the uploaded code in the bulk error list) | Config.MaskIntendedShape (about Config.MaskSensitiveIntended) |
