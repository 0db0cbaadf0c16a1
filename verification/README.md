# flamingo-commerce checkout and cart core, modelled in Dafny

This project models four parts of the flamingo-commerce Go repository and proves properties of each.

- **The place-order process.** This covers the process `Context` and the `ContextStore`, and the states `PlaceOrder`, `CreatePayment`, `ValidatePayment`, `Redirect`, `ShowIframe`, `ShowWalletPayment`, `Success` and `Failed`. The model gives each state's `Name`, `IsFinal`, `Run` and `Rollback`.
- **The payment gateway registry.** This is `PaymentService`.
- **The in-memory cart behaviour.** This is `DefaultCartBehaviour`, together with its default voucher and gift-card handlers.
- **The decorated cart and small mappers.** This covers the decorated cart with item grouping, the search sort-option mapping of the GraphQL resolver, the tax lookup of the GraphQL DTO, and the offline payment provider.

## How the model is organised

The model is functional. Every entity is an immutable datatype and every operation is a pure function.

Collaborators whose code is not part of this model are oracles: function-typed fields or parameters whose answers the model takes as given. These are:

- the payment gateways;
- the order service;
- the product service;
- the payment validator;
- the voucher and gift-card handlers;
- the money comparisons.

State runs return the new context, the run result, and the trace of external calls they made. This lets properties such as "called once, with the process UUID" be stated.

Cart storage is a `map` from cart id to cart. "Nothing else changes" means the storage after an operation equals the storage before it with one entry replaced.

| file | module | models |
|---|---|---|
| wrappers.dfy | `Wrappers` | `Option` and `Result` |
| net_url.dfy | `NetUrl` | a URL value |
| seq_edit.dfy | `SeqEdit` | first match, replace, swap-remove and filter on sequences |
| string_order.dfy | `StringOrder` | byte-wise string order and the insertion sort standing for `sort.Strings` |
| cart_domain.dfy | `CartDomain` | cart, delivery, item, payment selection, tax |
| cart_delete_item.dfy | `ItemDeletion` | the in-place slice deletion loop of `DeleteItem` |
| cart_handlers.dfy | `CartHandlers` | voucher and gift-card handlers and their defaults |
| cart_behaviour.dfy | `CartBehaviour` | `DefaultCartBehaviour` |
| product_domain.dfy | `ProductDomain` | product kinds and the product-service oracles |
| cart_decorator.dfy | `CartDecorator` | `DecoratedCartFactory` and decorated-cart lookups |
| cart_grouping.dfy | `CartGrouping` | `GetGroupedBy` of a decorated delivery and of a decorated cart |
| search_sort_options.dfy | `SearchSortOptions` | `CommerceSearchQueryResolver.SortOptions` |
| taxes.dfy | `Taxes` | `Taxes.GetByType` |
| offline_payment.dfy | `OfflinePayment` | `OfflinePaymentProvider` |
| payment_service.dfy | `PaymentService` | `PaymentService` |
| payment_ports.dfy | `PaymentPorts` | payment, flow result, web-cart payment gateway |
| order_ports.dfy | `OrderPorts` | place-order info, order service |
| process_context.dfy | `ProcessContext` | `Context`, `StateData`, `RunResult`, `UpdateState`, `UpdateOrderInfo`, `ContextStore` |
| state_place_order.dfy | `PlaceOrderState` | `PlaceOrder` |
| state_create_payment.dfy | `CreatePaymentState` | `CreatePayment` |
| states_interactive.dfy | `InteractiveStates` | `ValidatePayment`, `Redirect`, `ShowIframe`, `ShowWalletPayment` |
| states_terminal.dfy | `TerminalStates` | `Success`, `Failed` |
| states.dfy | `States` | all states as one closed set |

## Model

Most cart operations end by storing the cart and re-checking its payment selection. The predicate `CartBehaviour.Revalidated` states the outcome of that step in full. Only this cart's storage entry changes. The returned cart is the given one, except that the selection is cleared exactly when the totals no longer match it. In that case exactly one `PaymentSelectionHasBeenResetEvent` is deferred, carrying the cleared cart; otherwise there are no events. A row below that says "revalidated in the sense of `Revalidated`" means this outcome, for the cart the row names.

| member | source | states |
|---|---|---|
| ProcessContext.UpdateState | checkout/domain/placeorder/process/context.go:14-16 | the context holds one current state name and one state data, both replaced, and nothing else in the context changes |
| ProcessContext.UpdateOrderInfo | checkout/domain/placeorder/process/context.go:17 | the placed-order info becomes present and equal to the given info, and nothing else changes |
| ProcessContext.UpdateStateLastWins | checkout/domain/placeorder/process/context.go:14-16 | there is one current state at a time: a second state update fully overrides the first |
| ProcessContext.UpdatesCommute | checkout/domain/placeorder/process/context.go:14-17 | moving to a state and recording the order info touch disjoint parts of the context |
| ProcessContext.NoRollback | checkout/domain/placeorder/states/validate_payment.go:46-48 | the rollback shared by ValidatePayment, Redirect, ShowIframe, ShowWalletPayment, Success and Failed succeeds for any data and makes no call |
| ProcessContext.Store | checkout/domain/placeorder/process/context.go:28 | after storing, the key is present |
| ProcessContext.Get | checkout/domain/placeorder/process/context.go:29 | found exactly when something is stored under the key |
| ProcessContext.Delete | checkout/domain/placeorder/process/context.go:30 | after deleting, the key is absent |
| ProcessContext.StoreThenGet | checkout/domain/placeorder/process/context.go:27-30 | getting a key just stored returns the stored context, state data included; other keys read as before |
| ProcessContext.DeleteThenGet | checkout/domain/placeorder/process/context.go:29-30 | after Delete the key is not found; other keys read as before |
| PlaceOrderState.Inject | checkout/domain/placeorder/states/place_order.go:40-52 | the state keeps the injected order service, decorator collaborators and payment service |
| PlaceOrderState.Run | checkout/domain/placeorder/states/place_order.go:60-99 | zero total: no gateway call, state Success, the decorated cart placed with the empty payment. No gateway: payment error with the lookup text, context untouched, no call. Flow error: generic error, context untouched. Payment obtained: state ValidatePayment written, then the decorated cart placed with that payment. In both placing paths a placing error is a generic error with the new state kept, and a placed order is recorded and handed over for rollback |
| PlaceOrderState.PlaceWith | checkout/domain/placeorder/states/place_order.go:88-98 | the decorated cart is placed once with the given payment; the order service's error becomes a generic failure with the context untouched, and its order info is recorded in the context and handed over as rollback data |
| PlaceOrderState.TypeName | checkout/domain/placeorder/states/place_order.go:106-108 | the dynamic type name of place-order rollback data is `states.PlaceOrderRollbackData` |
| PlaceOrderState.WrongTypeErrorAsWritten | checkout/domain/placeorder/states/place_order.go:106-109 | as written, the wrong-type error always names the expected type, whatever data was passed |
| PlaceOrderState.WrongTypeErrorAsWrittenHidesType | checkout/domain/placeorder/states/place_order.go:106-109 | a string and a nil passed as rollback data give the same as-written message, naming `states.PlaceOrderRollbackData` |
| PlaceOrderState.WrongTypeError | checkout/domain/placeorder/states/place_order.go:106-109 | the corrected error is the fixed prefix followed by the type name of the data actually passed |
| PlaceOrderState.WrongTypeErrorNamesType | checkout/domain/placeorder/states/place_order.go:106-109 | corrected errors for two wrong-typed values are equal exactly when their type names are |
| PlaceOrderState.Rollback | checkout/domain/placeorder/states/place_order.go:102-117 | wrong-typed data is the as-written wrong-type error with no call; otherwise the order is cancelled without restore once, and the order service's error (or none) is returned |
| PlaceOrderState.RunThenRollbackCancelsPlacedOrder | checkout/domain/placeorder/states/place_order.go:95-116 | the rollback data of a successful run cancels exactly the order that run recorded |
| CreatePaymentState.Inject | checkout/domain/placeorder/states/create_payment_test.go:37-39 | the state keeps the injected payment service, and the successor for a flow without early placing |
| CreatePaymentState.Run | checkout/domain/placeorder/states/create_payment_test.go:24-113 | no selection or gateway: payment error, no call. StartFlow error: payment error, StartFlow called once with UUID and return URL, no further call. OrderPaymentFromFlow error: payment error. Success: StartFlow then OrderPaymentFromFlow once each, result exactly the gateway and payment id with no failure, and state CompleteCart when the flow asks for early placing. Every failure leaves the context as it was |
| CreatePaymentState.Rollback | checkout/domain/placeorder/states/create_payment_test.go:159-227 | wrong-typed data and an unknown gateway are errors with no call; otherwise CancelOrderPayment is called once with the rebuilt payment and its error is returned verbatim |
| CreatePaymentState.RunThenRollbackCancelsPayment | checkout/domain/placeorder/states/create_payment_test.go:41-46 | the rollback data of a successful run cancels, at the payment's gateway, the payment the flow produced |
| InteractiveStates.Inject | checkout/domain/placeorder/states/validate_payment.go:22-30 | the state keeps the injected payment service and validator |
| InteractiveStates.Name | checkout/domain/placeorder/states/redirect.go:44-46 | the names are exactly "ValidatePayment", "Redirect", "ShowIframe" and "ShowWalletPayment", one per kind |
| InteractiveStates.NameIdentifiesKind | checkout/domain/placeorder/states/show_wallet_payment.go:48-50 | "ValidatePayment", "Redirect", "ShowIframe" and "ShowWalletPayment" are pairwise different, so the name tells the state |
| InteractiveStates.RunIsValidatorAnswer | checkout/domain/placeorder/states/show_iframe.go:49-54 | every interactive state's run is the injected validator's answer for the injected payment service, unchanged |
| InteractiveStates.AsUrl | checkout/domain/placeorder/states/redirect.go:28-30 | state data reads as a URL exactly when it holds one |
| InteractiveStates.AsWalletDetails | checkout/domain/placeorder/states/show_wallet_payment.go:32-34 | state data reads as wallet details exactly when it holds them |
| InteractiveStates.AsHtml | checkout/domain/placeorder/states/show_html_test.go:42-44 | state data reads as HTML exactly when it holds HTML |
| InteractiveStates.AsPostRedirect | checkout/domain/placeorder/states/post_redirect_test.go:43-56 | state data reads as URL plus form fields exactly when it holds them |
| InteractiveStates.StateDataRoundTrip | checkout/domain/placeorder/states/show_iframe.go:28-30 | every state-data constructor wraps its argument unchanged: it reads back as what was put in, and not as another kind |
| InteractiveStates.StoredRedirectKeepsUrl | checkout/domain/placeorder/states/redirect.go:23-30 | a redirect URL stored with the context in the context store reads back unchanged |
| TerminalStates.Name | checkout/domain/placeorder/states/failed.go:20-22 | the name is "Success" for Success and "Failed" for Failed, whatever the reason |
| TerminalStates.Run | checkout/domain/placeorder/states/success.go:23-28 | an empty result (no rollback data, no failure), the context untouched, no call |
| TerminalStates.RunIsIdempotent | checkout/domain/placeorder/states/success.go:23-28 | running a final state again gives the same step |
| States.FinalExactlyByName | checkout/domain/placeorder/states/success.go:36-38 | a state is final exactly when its name is "Success" or "Failed"; PlaceOrder, CreatePayment and the interactive states are not final |
| States.NameIdentifiesState | checkout/domain/placeorder/states/place_order.go:55-57 | no two kinds of state share a name |
| States.FinalStatesAreInert | checkout/domain/placeorder/states/failed.go:25-35 | running a final state leaves the context alone with an empty result, and rolling it back does nothing |
| States.OnlyPlaceOrderRecordsOrder | checkout/domain/placeorder/process/context.go:17 | CreatePayment and the final states never record order info |
| States.FailureLeavesNoRollbackData | checkout/domain/placeorder/states/place_order.go:70-93 | a failing run of a modelled state hands over no rollback data |
| States.PlaceOrderNamesModelledStates | checkout/domain/placeorder/states/place_order.go:83-85 | the names PlaceOrder writes as the next state, "ValidatePayment" and "Success", belong to the modelled ValidatePayment state and the Success state and to no other state |
| PaymentService.Inject | payment/application/payment_service.go:18-22 | the registry is what the provider hands over |
| PaymentService.PaymentGateway | payment/application/payment_service.go:25-32 | found exactly for registered codes, giving the registered gateway; otherwise "Payment gateway <code> not found" |
| PaymentService.PaymentGatewayByCart | payment/application/payment_service.go:40-46 | with no selection, "PaymentSelection not set" without a lookup; otherwise the lookup of the selection's gateway |
| PaymentService.InjectedRegistry | payment/application/payment_service_test.go:14-42 | the available gateways are what was injected, and lookups succeed exactly for their codes |
| PaymentService.GatewayByCartFound | payment/application/payment_service_test.go:44-66 | a cart finds a gateway exactly when it has a selection whose gateway is registered |
| CartBehaviour.StoreCart | cart/infrastructure/defaultCartBehaviour.go:138-141 | after storing, the storage holds the cart under its id |
| CartBehaviour.CheckPaymentSelection | cart/infrastructure/defaultCartBehaviour.go:553-563 | an error exactly when there is a selection whose totals do not match the cart |
| CartBehaviour.UpdatePaymentSelection | cart/infrastructure/defaultCartBehaviour.go:405-420 | a mismatching selection is rejected and nothing is stored; otherwise only this cart changes, to carry the new selection |
| CartBehaviour.ResetPaymentSelectionIfInvalid | cart/infrastructure/defaultCartBehaviour.go:566-578 | a valid or absent selection: cart unchanged, nothing stored, no event. A mismatch: the selection is cleared, the cart stored, exactly one reset event |
| CartBehaviour.StoreAndRevalidate | cart/infrastructure/defaultCartBehaviour.go:138-143 | only this cart changes; the stored cart differs from the input at most in the selection, which is cleared exactly when invalid; the events are exactly one `PaymentSelectionHasBeenResetEvent` carrying the cleared cart when invalid, and none otherwise |
| CartBehaviour.DeleteItem | cart/infrastructure/defaultCartBehaviour.go:114-144 | an unknown cart fails with nothing stored; otherwise the item-removed cart is stored and revalidated in the sense of `Revalidated` |
| CartBehaviour.RemoveItemFromDelivery | cart/infrastructure/defaultCartBehaviour.go:119-137 | with a unique id, exactly that item leaves the first delivery with the code; deliveries with another code and the other cart fields are unchanged, and every delivery with the code becomes the edited one |
| CartBehaviour.RemoveItemNoMatch | cart/infrastructure/defaultCartBehaviour.go:119-137 | an unknown delivery, or no item with the id, leaves the cart unchanged |
| ItemDeletion.DeleteFromItemsAbsent | cart/infrastructure/defaultCartBehaviour.go:126-133 | with no item of the id, the items are kept and nothing is reported deleted |
| ItemDeletion.DeleteFromItemsUnique | cart/infrastructure/defaultCartBehaviour.go:126-133 | with one item of the id, exactly that item is removed, order kept |
| ItemDeletion.DeleteFromItemsRepeatedId | cart/infrastructure/defaultCartBehaviour.go:126-133 | with three items of one id, the in-place loop over the aliased slice removes only the first |
| ItemDeletion.RangeDeleteSkips | cart/infrastructure/defaultCartBehaviour.go:126-133 | from a position past which no item has the id, the loop keeps the current items |
| ItemDeletion.RangeDeleteAdvance | cart/infrastructure/defaultCartBehaviour.go:126-133 | non-matching positions do not change what the loop computes |
| CartBehaviour.UpdateItem | cart/infrastructure/defaultCartBehaviour.go:147-163 | an unknown cart fails as "Cannot add"; an update error is returned with nothing stored; otherwise the updated cart is stored and revalidated in the sense of `Revalidated`; no other cart changes |
| CartBehaviour.UpdateItems | cart/infrastructure/defaultCartBehaviour.go:166-184 | an unknown cart fails as "Cannot update"; the first failing update aborts with nothing stored; otherwise the cart after all updates is stored and revalidated in the sense of `Revalidated` |
| CartBehaviour.UpdateItemIsSingletonUpdateItems | cart/infrastructure/defaultCartBehaviour.go:147-184 | for a stored cart, updating one item is updating the one-element list |
| CartBehaviour.EnsureDelivery | cart/infrastructure/defaultCartBehaviour.go:235-241 | afterwards a delivery with the code exists; an existing one leaves the cart unchanged, otherwise one empty delivery is appended |
| CartBehaviour.AddToCart | cart/infrastructure/defaultCartBehaviour.go:228-277 | an unknown cart or a failed item build fails with nothing stored; otherwise the cart with the delivery ensured and the item put in is stored and revalidated in the sense of `Revalidated` |
| CartBehaviour.AddItemKeepsDelivery | cart/infrastructure/defaultCartBehaviour.go:243-269 | adding keeps the delivery with the code |
| CartBehaviour.AddItemPlacesItem | cart/infrastructure/defaultCartBehaviour.go:243-269 | items of the same marketplace code are replaced in place, otherwise the item is appended; the target delivery keeps its info; deliveries with another code are unchanged, and every delivery with the code becomes the edited one |
| CartBehaviour.CleanCart | cart/infrastructure/defaultCartBehaviour.go:309-329 | deliveries, coupons, gift cards, selection, additional data, purchaser, billing address and totals are cleared; id and owner kept; only this cart changes |
| CartBehaviour.CleanDelivery | cart/infrastructure/defaultCartBehaviour.go:332-361 | an unknown code is the "delivery <code> not found" error; otherwise the first delivery with the code is removed by moving the last into its slot, count minus one, the rest kept, and that cart is stored and revalidated in the sense of `Revalidated` |
| CartBehaviour.UpdatePurchaser | cart/infrastructure/defaultCartBehaviour.go:364-377 | the purchaser is replaced, and the custom attributes are replaced only when additional data is given; the reserved order id is kept |
| CartBehaviour.UpdateBillingAddress | cart/infrastructure/defaultCartBehaviour.go:380-390 | only the billing address changes, and only this cart is stored |
| CartBehaviour.UpdateAdditionalData | cart/infrastructure/defaultCartBehaviour.go:393-402 | only the additional data changes, and only this cart is stored |
| CartBehaviour.UpdateDeliveryInfo | cart/infrastructure/defaultCartBehaviour.go:423-446 | the first delivery with the code gets the new info, items kept, stored with no revalidation and no events; otherwise a new empty delivery with the info is appended and that cart is stored and revalidated in the sense of `Revalidated`; apart from the deliveries and that revalidation nothing in the cart changes |
| CartBehaviour.UpdateDeliveryInfoAdditionalData | cart/infrastructure/defaultCartBehaviour.go:449-451 | the cart is returned as it was, with nothing stored |
| CartBehaviour.Complete | cart/infrastructure/defaultCartBehaviour.go:95-101 | the cart leaves storage and is returned unchanged |
| CartBehaviour.Restore | cart/infrastructure/defaultCartBehaviour.go:104-111 | the cart is stored again and returned unchanged |
| CartBehaviour.GetCart | cart/infrastructure/defaultCartBehaviour.go:454-464 | found exactly when stored, giving the stored cart; otherwise the not-found error |
| CartBehaviour.StoreNewCart | cart/infrastructure/defaultCartBehaviour.go:467-472 | a cart without id is rejected with "no id given"; otherwise only its entry is added |
| CartBehaviour.AfterHandler | cart/infrastructure/defaultCartBehaviour.go:475-488 | a handler error is returned with nothing stored; otherwise the handler's cart is stored and revalidated in the sense of `Revalidated` |
| CartBehaviour.ApplyVoucher | cart/infrastructure/defaultCartBehaviour.go:475-488 | the voucher handler's error, or its cart stored and revalidated in the sense of `Revalidated` |
| CartBehaviour.RemoveVoucher | cart/infrastructure/defaultCartBehaviour.go:503-515 | the voucher handler's error, or its cart stored and revalidated in the sense of `Revalidated` |
| CartBehaviour.ApplyGiftCard | cart/infrastructure/defaultCartBehaviour.go:519-530 | the gift-card handler's error, or its cart stored and revalidated in the sense of `Revalidated` |
| CartBehaviour.RemoveGiftCard | cart/infrastructure/defaultCartBehaviour.go:534-546 | the gift-card handler's error, or its cart stored and revalidated in the sense of `Revalidated` |
| CartBehaviour.ApplyAny | cart/infrastructure/defaultCartBehaviour.go:491-500 | a code the voucher handler accepts is a voucher; otherwise it is tried as a gift card on the original cart |
| CartBehaviour.ApplyAnyWithDefaultHandlers | cart/infrastructure/defaultCartBehaviour.go:491-500 | with the default handlers, "valid" becomes a coupon and "valid_giftcard" a gift card, the other list untouched |
| CartHandlers.DefaultApplyVoucher | cart/infrastructure/defaultCartBehaviour.go:581-592 | accepted exactly for "valid_voucher" and "valid", appending one coupon; otherwise "Code invalid" |
| CartHandlers.DefaultRemoveVoucher | cart/infrastructure/defaultCartBehaviour.go:595-606 | never fails; an absent code leaves the cart; otherwise one coupon with the code goes, count minus one, the last coupon moves into the first matching slot and every other coupon keeps its place; nothing else in the cart changes |
| CartHandlers.DefaultApplyGiftCard | cart/infrastructure/defaultCartBehaviour.go:609-622 | accepted exactly for "valid_giftcard" and "valid", appending one card with 10 cents applied and none remaining; otherwise "Code invalid" |
| CartHandlers.DefaultRemoveGiftCard | cart/infrastructure/defaultCartBehaviour.go:625-636 | never fails; an absent code leaves the cart; otherwise the first card with the code goes, the last card moves into its slot and every other card keeps its place |
| CartHandlers.VoucherApplyRemoveRoundTrip | cart/infrastructure/defaultCartBehaviour.go:581-606 | applying then removing a valid voucher restores the coupons up to order |
| CartHandlers.GiftCardApplyRemoveRoundTrip | cart/infrastructure/defaultCartBehaviour.go:609-636 | applying then removing a new valid gift card restores the cards up to order |
| CartDomain.DeliveryIndexFindsFirst | cart/infrastructure/defaultCartBehaviour.go:338-345 | the delivery index is found exactly when a delivery has the code, and it is the first such |
| CartDecorator.DecorateCartItem | cart/domain/decorator/cartDecorator.go:85-118 | the item is kept; no product exactly when the lookup failed but returned a product; the "[outdated]" placeholder when it returned none or a configurable's variant is unresolvable; a found non-configurable product is kept; a configurable whose variant resolves becomes that configurable with the active variant; never a bare configurable |
| CartDecorator.DecoratedItemConfigurable | cart/domain/decorator/cartDecorator.go:121-126 | a decorated item is configurable exactly when the found product has the active-variant type or the variant resolves; never without a product |
| CartDecorator.DecorateItems | cart/domain/decorator/cartDecorator.go:75-82 | one decorated item per item, in order |
| CartDecorator.DecorateDeliveries | cart/domain/decorator/cartDecorator.go:61-72 | one decorated delivery per delivery, in order, each decorating its items |
| CartDecorator.Create | cart/domain/decorator/cartDecorator.go:61-72 | the cart is kept, with one decorated delivery per delivery and one decorated item per item, in order |
| CartDecorator.GetAllDecoratedItems | cart/domain/decorator/cartDecorator.go:200-206 | every delivery's decorated items are among all items, and every one of all items belongs to some delivery |
| CartDecorator.ConcatDecoratedAppend | cart/domain/decorator/cartDecorator.go:200-206 | collecting all items distributes over concatenated deliveries |
| CartDecorator.AllDecoratedItemsMembers | cart/domain/decorator/cartDecorator.go:200-206 | every delivery's item is among all items, and every one of all items is in some delivery |
| CartDecorator.CreateKeepsAllItems | cart/domain/decorator/cartDecorator.go:61-82 | decorating deliveries keeps the in-order concatenation of their items |
| CartDecorator.CreatedCartKeepsAllItems | cart/domain/decorator/cartDecorator.go:200-206 | all decorated items of a created cart are the cart's items in order |
| CartDecorator.GetDecoratedDeliveryByCode | cart/domain/decorator/cartDecorator.go:209-217 | the first decorated delivery with the code, or none exactly when no delivery has it |
| CartDecorator.DeliveryByCodeAgrees | cart/domain/decorator/cartDecorator.go:209-217 | the decorated lookup finds exactly the delivery the plain cart lookup finds, decorated |
| CartDecorator.GetDecoratedCartItemById | cart/domain/decorator/cartDecorator.go:274-281 | the first decorated item with the id, or none exactly when no item has it |
| CartGrouping.FirstAppearanceProps | cart/domain/decorator/cartDecorator.go:238-243 | the first-appearance key list is duplicate-free and has exactly the keys |
| CartGrouping.Collect | cart/domain/decorator/cartDecorator.go:226-248 | the key list and the map hold the same keys |
| CartGrouping.CollectKeys | cart/domain/decorator/cartDecorator.go:238-243 | the collecting loop lists keys in first-appearance order |
| CartGrouping.CollectEntryStep | cart/domain/decorator/cartDecorator.go:245-247 | one loop step keeps every group equal to the items of that key so far |
| CartGrouping.CollectEntries | cart/domain/decorator/cartDecorator.go:245-247 | each collected group holds exactly the items with its key, in item order |
| CartGrouping.OrderedKeysFacts | cart/domain/decorator/cartDecorator.go:251-262 | sorting the keys permutes them and keeps them duplicate-free |
| CartGrouping.GroupedByFacts | cart/domain/decorator/cartDecorator.go:226-271 | every listed key has a group, keys are distinct, every item's key is listed |
| CartGrouping.GetGroupedBy | cart/domain/decorator/cartDecorator.go:226-271 | distinct group names; each group is exactly its key's items in order; every item's key has a group; first-appearance order unsorted, otherwise sorted ascending or, for "DESC", descending |
| CartGrouping.PartitionUnique | cart/domain/decorator/cartDecorator.go:226-271 | groups filtered by distinct keys put each item in exactly one group |
| CartGrouping.ItemInExactlyOneGroup | cart/domain/decorator/cartDecorator.go:226-271 | every item of the delivery is in exactly one group |
| CartGrouping.GetGroupedByCart | cart/domain/decorator/cartDecorator.go:188-197 | no groups unless the cart has exactly one delivery; with one delivery, the groups are that delivery's groups |
| CartGrouping.CartGroupingCoversAllItems | cart/domain/decorator/cartDecorator.go:188-206 | for a one-delivery cart, every item's key has a group and every grouped item is an item of the cart |
| StringOrder.Sort | cart/domain/decorator/cartDecorator.go:251-262 | the result is sorted in the requested direction and is a permutation of the input |
| SearchSortOptions.Entries | search/interfaces/graphql/resolver.go:16-29 | an ascending entry if offered, before a descending entry if offered |
| SearchSortOptions.SortOptions | search/interfaces/graphql/resolver.go:13-33 | never an error; empty input gives an empty list |
| SearchSortOptions.ExpandAppend | search/interfaces/graphql/resolver.go:15-30 | the mapping distributes over concatenated option lists, so input order is kept |
| SearchSortOptions.SortOptionsLength | search/interfaces/graphql/resolver.go:14-32 | the length is the number of options with an ascending field plus the number with a descending field |
| SearchSortOptions.SortOptionsEntriesFromOptions | search/interfaces/graphql/resolver.go:16-29 | every entry is the " (asc)" or " (desc)" entry of some option that offers it |
| SearchSortOptions.SortOptionsOffersAll | search/interfaces/graphql/resolver.go:16-29 | every offered direction of every option has its entry |
| Taxes.GetByType | cart/interfaces/graphql/dto/taxes.go:15-22 | the first tax of the type, which has that type; the zero tax when none has it |
| Taxes.GetByTypeAppend | cart/interfaces/graphql/dto/taxes.go:16-21 | on concatenated lists, the earlier list wins when it has the type |
| OfflinePayment.GetCode | checkout/infrastructure/payment/offlinePaymentProvider.go:22-24 | the code is "offlinepayment" |
| OfflinePayment.GetPaymentMethods | checkout/infrastructure/payment/offlinePaymentProvider.go:27-35 | exactly one method: "Cash on delivery", code "offlinepayment_cashondelivery", not external |
| OfflinePayment.RedirectExternalPayment | checkout/infrastructure/payment/offlinePaymentProvider.go:38-40 | always the error "No Redirect" |
| OfflinePayment.ProcessPayment | checkout/infrastructure/payment/offlinePaymentProvider.go:46-68 | never fails; one open payment info with the chosen method's code from provider "offlinepayment"; one assignment per item reference, in order, all to that info |
| OfflinePayment.Assign | checkout/infrastructure/payment/offlinePaymentProvider.go:53-59 | one assignment per reference, in order, each pointing at the first payment info |
| OfflinePayment.AssignmentsCoverReferences | checkout/infrastructure/payment/offlinePaymentProvider.go:53-67 | every assignment points at an existing payment info with the chosen method, and the assigned references are the given ones |
| OfflinePayment.CashOnDeliveryPayment | checkout/infrastructure/payment/offlinePaymentProvider.go:27-67 | paying with the provider's own method yields one open cash-on-delivery info |

## Left out

- The place-order run loop, `Handler`, `Factory`, `Process` internals and `Cancel` are not part of this model. Nothing is claimed about the order of compensation or about the state reported after a cancel.
- Payment gateways, the order service, the product service, the voucher and gift-card handlers, cart storage and the payment validator are oracles. Their behaviour is taken as given.
- Money and tax arithmetic is not modelled. `GrandTotal().IsZero()` and the payment-selection totals comparison are boolean oracles, because they work on floating point or on code outside the modelled files.
- Random item ids, logging, tracing spans and the `gob.Register` hooks are left out. They have no effect on the logic modelled.
- Concurrency is not modelled. Nothing is claimed about concurrent access to a context store key.
- `CartBehaviour.AddToCart`: Go appends the new empty delivery to the caller's cart before the item build can fail (lines 235-249). The model is functional, so a failed add leaves the caller's cart as it was.
- `CartBehaviour.UpdateItems`: Go's updates change the caller's cart in place, so a later failing command leaves the earlier commands' effects on it (lines 171-176). The model returns only the error and leaves the cart as it was.
- `CartBehaviour.Complete`: a failing `RemoveCart` in storage (lines 96-99) is not modelled. Removal is treated as always successful, like storing.
- `CartDomain.DeliveryIndex`: `cart.go` is not part of this model. `DeliveryIndex` and `HasDeliveryForCode` assume that `GetDeliveryByCode` returns the first delivery with the code.
- `CartBehaviour.StoreCart`: writing to cart storage is treated as always successful. The storage's own errors come from code that is not part of this model.
- Go's distinction between a nil and an empty slice is not modelled. Both are the empty sequence.
- `buildItemForCart` (product lookup, tax computation, random id) is not modelled. `CartBehaviour.AddToCart` takes its result as a parameter.
- The per-item update (`updateItem`) is an oracle passed to `CartBehaviour.UpdateItem` and `CartBehaviour.UpdateItems`. It depends on item validation and price code that is not part of this model.
- `CartBehaviour.UpdateItems`: the contract pins down the failure cases and the empty command list. For longer lists it states only what the fold of the update oracle gives.
- `ErrCartNotFound` is declared in `cart.go`, outside the modelled files. `CartBehaviour.GetCart` uses a stand-in text.
- `application.PlaceOrderInfo`, `domain.WalletDetails` and `placeorder.Payment` are reduced to the fields the states use. Raw transaction data is not modelled.
- The `CreatePayment` state's source is not part of this model. `CreatePaymentState.Run` and `CreatePaymentState.Rollback` follow its tests.
  - The tests fix the next state, `CompleteCart`, only after an early place order. When the flow does not ask for early placing, the next state is the parameter `lateSuccessor`.
  - The tests require only that a missing payment selection fails. The model uses the payment-error reason with the lookup text, as `PlaceOrder` does.
  - The tests do not show the wrong-type rollback error text. The model uses a fixed text.
- `PlaceOrderState.Run`: a gateway or order-service answer with neither a value nor an error is not modelled. In Go that answer dereferences nil (place_order.go lines 88 and 97).
- `CartDecorator.DecorateCartItem` does not model a product service answering with neither a product nor an error. In Go that answer dereferences nil.
- `CartGrouping.GetGroupedBy` requires every item to have a product when grouping by "retailer_code". In Go an item without a product makes the retailer-code read panic.
- `GetDisplayTitle`, `GetVariant`, `GetChargesToPay`, the variation-attribute getters and `GetDecoratedDeliveryByCodeWithoutBool` are not modelled. They read product data through code that is not part of this model.
- `IsActive` of the offline provider is the `enabled` field itself, so it has no contract of its own.

## Findings

| source | as written | input that shows it | evidently intended | confidence | as-written member | corrected member |
|---|---|---|---|---|---|---|
| checkout/domain/placeorder/states/place_order.go:106-109 | the wrong-type error formats `%T` of `rollbackData`, the zero `PlaceOrderRollbackData` left by the failed type assertion, so it always says "but states.PlaceOrderRollbackData" | `Rollback` called with the string "string" (or with nil) as rollback data | the error names the dynamic type of `data`, the value actually passed | high, not executed | PlaceOrderState.WrongTypeErrorAsWrittenHidesType | PlaceOrderState.WrongTypeErrorNamesType |

`PlaceOrderState.Rollback` returns the as-written text, as the source does. `PlaceOrderState.WrongTypeError` is the corrected text, and only the Findings row uses it.

`PlaceOrderState.Run` follows the code where it is inconsistent with the rest of the process. In `PlaceOrder`, a failing `OrderPaymentFromFlow` is reported as the generic `ErrorOccurredReason`. The same gateway failure in `CreatePayment` is a `PaymentErrorOccurredReason`.
