# Takeaway back end: orders, cart, catalogue and staff, modelled in Dafny

This project models the service layer of a Spring Boot takeaway back end. It covers:

- the order lifecycle: submit, pay, confirm, reject, cancel, deliver, complete, the user's own cancellation, and the scheduled sweeps;
- the shopping cart's line arithmetic;
- the address book's default address;
- the catalogue rules for categories, dishes and set meals;
- staff login;
- the per-day statistics reports;
- the global exception handler's duplicate-key message.

The database is one `Tables.Store` object.

- Each table (orders, order details, cart lines, address book, categories, dishes, dish flavours, set meals, set-meal-dish links, employees) is a `map` from id to row.
- Each table has an auto-increment counter for the next id.
- `Valid()` says every id lies in `[1, counter)`.

A mapper statement is a `Store` method or a function on the maps:

- a select returns the matching rows in ascending id order (`Tables.Ids`);
- an `update` writes only the non-null fields of the sparse object it is given (`Option` fields with `OrKeep`/`OrDefault`).

Each service method is a method on the store, with a frame naming the tables it may change. Its `ensures` ties the new tables to a pure function, and the lemmas are about those functions.

Parameters stand for the environment:

- `now` (integer seconds) is the clock;
- `user` is `BaseContext.getCurrentId()`;
- `hash` is the MD5 digest;
- a returned `Notification` is the WebSocket push;
- a returned `refund` flag is the WeChat refund call.

Dates in the reports are integer day numbers; day `d` covers the seconds `d*86400` to `d*86400+86399`.

Errors are values:

- `Business(msg)` is a business exception with its message;
- `NullPointer`, `IndexOutOfBounds` and `TooManyResults` are the runtime exceptions the code lets escape: a dereferenced null, an array index out of range, and MyBatis finding several rows for a single-row select.

Where the system's design and its code disagree, the model follows the code. The differences proved about are listed under "## Findings". In each case the model has both the as-written behaviour and the evidently intended one, with the intended property proved.

- The design forbids a cancelled order that is still paid. The code reaches that state: rejection and cancel refund a paid order but leave it PAID.
- The design guards every transition. The code's confirm, merchant cancel and payment have no status guard.

Statuses are compared as values. The code compares `Integer` status objects with `==`. For the constants 0 and 1 this behaves as value equality, because Java caches small boxed integers. A null status is treated as not equal to any constant.

## Model

| member | source | states |
|---|---|---|
| Tables.Ids | sky-server/src/main/java/com/sky/service/impl/ShoppingCartServiceImpl.java:51 | a select returns exactly the ids of the rows that satisfy the condition, in strictly ascending order |
| Tables.IdsMonotone | sky-server/src/main/java/com/sky/service/impl/ReportServiceImpl.java:169-172 | a stricter condition never selects more rows |
| Tables.AppendRows | sky-server/src/main/java/com/sky/service/impl/OrderServiceImpl.java:117 | a batch insert gives the rows consecutive new ids from the counter, in list order, and keeps every existing row |
| Tables.Store.InsertOrder | sky-server/src/main/java/com/sky/service/impl/OrderServiceImpl.java:105 | the order gets the next id, which was unused; nothing else in the table changes |
| Tables.Store.InsertDetails | sky-server/src/main/java/com/sky/service/impl/OrderServiceImpl.java:117 | the details are appended under consecutive new ids |
| Tables.Store.InsertCartLines | sky-server/src/main/java/com/sky/service/impl/OrderServiceImpl.java:429 | the cart lines are appended under consecutive new ids |
| Tables.Store.DeleteCartOfUser | sky-server/src/main/java/com/sky/service/impl/OrderServiceImpl.java:119 | exactly the user's cart lines are removed |
| Tables.Store.UpdateOrder | sky-server/src/main/java/com/sky/task/OrderTask.java:41 | only the row with that id is overwritten |
| Tables.Store.InsertCartLine | sky-server/src/main/java/com/sky/service/impl/ShoppingCartServiceImpl.java:73 | the line gets the next unused id |
| Tables.Store.UpdateCartNumber | sky-server/src/main/java/com/sky/service/impl/ShoppingCartServiceImpl.java:55 | only that line's quantity changes |
| Tables.Store.DeleteCartLine | sky-server/src/main/java/com/sky/service/impl/ShoppingCartServiceImpl.java:122 | exactly that line is removed |
| Tables.Store.InsertDish | sky-server/src/main/java/com/sky/service/impl/DishServiceImpl.java:58 | the dish gets the next unused id |
| Tables.Store.InsertFlavors | sky-server/src/main/java/com/sky/service/impl/DishServiceImpl.java:70 | the flavours are appended under consecutive new ids |
| Tables.Store.InsertSetmeal | sky-server/src/main/java/com/sky/service/impl/SetmealServiceImpl.java:55 | the set meal gets the next unused id |
| Tables.Store.InsertLinks | sky-server/src/main/java/com/sky/service/impl/SetmealServiceImpl.java:65 | the set-meal-dish links are appended under consecutive new ids |
| Tables.Store.InsertEmployee | sky-server/src/main/java/com/sky/service/impl/EmployeeServiceImpl.java:76 | the employee gets the next unused id |
| OrderLifecycle.Patched | sky-server/src/main/java/com/sky/service/impl/OrderServiceImpl.java:527-531 | an update with a sparse object changes only the row with that id, field by field where the patch is set; a missing id changes nothing |
| OrderLifecycle.FindOne | sky-server/src/main/java/com/sky/service/impl/OrderServiceImpl.java:212-213 | a single-row select followed by a dereference: a found id satisfies the condition; otherwise a NullPointerException or too many results |
| OrderLifecycle.FindByNumber | sky-server/src/main/java/com/sky/service/impl/OrderServiceImpl.java:263-267 | a found id is the user's order with that number; a failure is a NullPointerException or too many results |
| OrderLifecycle.FindByNumberExact | sky-server/src/main/java/com/sky/service/impl/OrderServiceImpl.java:263-267 | the lookup is a NullPointerException exactly when the user has no order with the number, and finds the order when it is the only one |
| OrderLifecycle.FindByOrderNumber | sky-server/src/main/java/com/sky/service/impl/OrderServiceImpl.java:212-213 | a found id is an order (of any user) with that number; a failure is a NullPointerException or too many results |
| OrderLifecycle.Payment | sky-server/src/main/java/com/sky/service/impl/OrderServiceImpl.java:212-232 | the order is written back with status TO_BE_CONFIRMED whatever its status and pay status; nothing else changes |
| OrderLifecycle.PaymentThenPaySuccess | sky-server/src/main/java/com/sky/service/impl/OrderServiceImpl.java:212-272 | payment followed by paySuccess leaves the table paySuccess alone leaves |
| OrderLifecycle.PaySuccess | sky-server/src/main/java/com/sky/service/impl/OrderServiceImpl.java:266-272 | the order becomes TO_BE_CONFIRMED and PAID with checkout time now; every other order is unchanged |
| OrderLifecycle.PaySuccessNotice | sky-server/src/main/java/com/sky/service/impl/OrderServiceImpl.java:275-278 | the broadcast after payment has type "1" (a JSON string, where the reminder sends the number 2), the order's id, and content "订单号：" followed by the order number |
| OrderLifecycle.UserCancel | sky-server/src/main/java/com/sky/service/impl/OrderServiceImpl.java:374-402 | a missing order is ORDER_NOT_FOUND and a status above 2 is ORDER_STATUS_ERROR; otherwise payStatus becomes 6, cancelReason "用户取消" and orderTime now, and the status is left as it was |
| OrderLifecycle.Confirm | sky-server/src/main/java/com/sky/service/impl/OrderServiceImpl.java:525-532 | the order becomes CONFIRMED whatever its status; no other order changes |
| OrderLifecycle.Rejection | sky-server/src/main/java/com/sky/service/impl/OrderServiceImpl.java:544-566 | succeeds exactly for an existing TO_BE_CONFIRMED order, which becomes CANCELLED with the rejection reason and cancel time set and its pay status kept; otherwise ORDER_STATUS_ERROR |
| OrderLifecycle.Cancel | sky-server/src/main/java/com/sky/service/impl/OrderServiceImpl.java:578-597 | any existing order becomes CANCELLED with the reason and cancel time; a missing one is a NullPointerException |
| OrderLifecycle.Delivery | sky-server/src/main/java/com/sky/service/impl/OrderServiceImpl.java:609-618 | succeeds exactly from CONFIRMED, moving to DELIVERY_IN_PROGRESS; otherwise ORDER_STATUS_ERROR with nothing changed |
| OrderLifecycle.Complete | sky-server/src/main/java/com/sky/service/impl/OrderServiceImpl.java:630-640 | succeeds exactly from DELIVERY_IN_PROGRESS, moving to COMPLETED with delivery time now; otherwise ORDER_STATUS_ERROR |
| OrderLifecycle.Reminder | sky-server/src/main/java/com/sky/service/impl/OrderServiceImpl.java:652-662 | an existing order yields a notification of type 2 (a JSON number) "订单号" + number; a missing one is ORDER_STATUS_ERROR |
| OrderLifecycle.GuardedStepsFollowDesign | sky-server/src/main/java/com/sky/service/impl/OrderServiceImpl.java:546-640 | the guarded transitions (reject, deliver, complete) only take designed lifecycle steps |
| OrderLifecycle.TerminalStatesReopen | sky-server/src/main/java/com/sky/service/impl/OrderServiceImpl.java:525-598 | with no guard, confirm moves a COMPLETED order back to CONFIRMED and cancel cancels a completed one; neither is a designed step |
| OrderLifecycle.PaymentReopens | sky-server/src/main/java/com/sky/service/impl/OrderServiceImpl.java:212-232 | with no guard, payment moves a completed, paid order back to TO_BE_CONFIRMED, which is not a designed step |
| OrderLifecycle.CancelKeepsPaid | sky-server/src/main/java/com/sky/service/impl/OrderServiceImpl.java:576-598 | a paid, confirmed order is cancelled by the merchant and stays PAID, so a cancelled order is still paid; confirmed to cancelled is not a designed step |
| OrderLifecycle.NoOrderIsRefunded | sky-server/src/main/java/com/sky/service/impl/OrderServiceImpl.java:395-398 | a well-formed order (one within the values the code writes) is never REFUND; OrderTask.NoWritesRefund shows every write keeps orders well-formed |
| OrderLifecycle.RejectionKeepsPaid | sky-server/src/main/java/com/sky/service/impl/OrderServiceImpl.java:550-566 | a rejected paid order is CANCELLED and still PAID |
| OrderLifecycle.UserCancelLeavesStatus | sky-server/src/main/java/com/sky/service/impl/OrderServiceImpl.java:384-402 | a user cancellation leaves the status and the cancel time as they were and stores 6 in payStatus |
| OrderLifecycle.UserCancelIntended | sky-server/src/main/java/com/sky/service/impl/OrderServiceImpl.java:387-400 | the intended cancellation cancels the order, stamps the cancel time, keeps the order time and marks a refunded order REFUND, so no cancelled order stays paid |
| OrderLifecycle.RejectionIntended | sky-server/src/main/java/com/sky/service/impl/OrderServiceImpl.java:550-566 | the intended rejection marks a paid order REFUND, so no cancelled order stays paid |
| OrderLifecycle.CancelIntended | sky-server/src/main/java/com/sky/service/impl/OrderServiceImpl.java:576-598 | the intended merchant cancel reports a missing order, cancels only a PENDING_PAYMENT or TO_BE_CONFIRMED order (a designed step), stamps the cancel time and marks a paid order REFUND, so no cancelled order stays paid |
| OrderLifecycle.PaymentIntended | sky-server/src/main/java/com/sky/service/impl/OrderServiceImpl.java:224-228 | the intended payment refuses a paid order with "该订单已支付" and leaves it as it was; an unpaid one is set to TO_BE_CONFIRMED |
| OrderLifecycle.ConfirmIntended | sky-server/src/main/java/com/sky/service/impl/OrderServiceImpl.java:525-532 | the intended confirm succeeds only from TO_BE_CONFIRMED |
| OrderLifecycle.ConfirmIntendedOnce | sky-server/src/main/java/com/sky/service/impl/OrderServiceImpl.java:525-532 | confirming twice fails the second time |
| OrderService.NewOrder | sky-server/src/main/java/com/sky/service/impl/OrderServiceImpl.java:89-103 | the new order is pending payment and unpaid, placed now by the current user, with the address fields copied |
| OrderService.CartDetailRoundTrip | sky-server/src/main/java/com/sky/service/impl/OrderServiceImpl.java:110-115 | a cart line copied into an order detail and back is the same line, and the reverse holds too |
| OrderService.DetailsFromCart | sky-server/src/main/java/com/sky/service/impl/OrderServiceImpl.java:108-115 | the loop makes one detail per cart line, in order, each under the new order's id |
| OrderService.SubmitOrder | sky-server/src/main/java/com/sky/service/impl/OrderServiceImpl.java:68-128 | a missing address fails first, then an empty cart, and neither writes anything; on success one pending order, one detail per cart line and an emptied cart for the user, with other carts kept |
| OrderService.Payment | sky-server/src/main/java/com/sky/service/impl/OrderServiceImpl.java:209-234 | the order found by number alone is set as OrderLifecycle.Payment says; a missing or ambiguous number fails and writes nothing |
| OrderService.PaySuccess | sky-server/src/main/java/com/sky/service/impl/OrderServiceImpl.java:258-285 | the order found by number and user is paid as OrderLifecycle.PaySuccess says, and the admins are notified |
| OrderService.UserCancelById | sky-server/src/main/java/com/sky/service/impl/OrderServiceImpl.java:372-403 | the table becomes what OrderLifecycle.UserCancel says; the refund is asked for exactly for a TO_BE_CONFIRMED order |
| OrderService.Repetition | sky-server/src/main/java/com/sky/service/impl/OrderServiceImpl.java:413-430 | every detail of the order, in id order, becomes a new cart line of the current user |
| OrderService.DishesText | sky-server/src/main/java/com/sky/service/impl/OrderServiceImpl.java:486-491 | the text is empty exactly for no details, and otherwise ends in ";" |
| OrderService.GetOrderDishesStr | sky-server/src/main/java/com/sky/service/impl/OrderServiceImpl.java:482-492 | an order's dish text is empty exactly when no stored detail belongs to the order |
| OrderService.DishesTextJoin | sky-server/src/main/java/com/sky/service/impl/OrderServiceImpl.java:486-491 | the dish text of a list is the texts of its parts concatenated |
| OrderService.DishesTextCons | sky-server/src/main/java/com/sky/service/impl/OrderServiceImpl.java:486-491 | the dish text is the first detail's entry followed by the rest's |
| OrderService.DishesTextSingle | sky-server/src/main/java/com/sky/service/impl/OrderServiceImpl.java:487 | one detail's entry is name, "*", number, ";" |
| Common.NatToString | sky-server/src/main/java/com/sky/service/impl/OrderServiceImpl.java:487 | the decimal digits of the number, without a leading zero, read back as the number itself |
| OrderService.CountStatus | sky-server/src/main/java/com/sky/service/impl/OrderServiceImpl.java:506-510 | the count of orders with a status is at most the number of orders, and zero exactly when no order has it |
| OrderService.Statistics | sky-server/src/main/java/com/sky/service/impl/OrderServiceImpl.java:502-516 | each field is the number of orders with its status (TO_BE_CONFIRMED, CONFIRMED, DELIVERY_IN_PROGRESS), and the three together never exceed the number of orders |
| OrderService.Confirm | sky-server/src/main/java/com/sky/service/impl/OrderServiceImpl.java:525-532 | the table becomes OrderLifecycle.Confirm's |
| OrderService.Rejection | sky-server/src/main/java/com/sky/service/impl/OrderServiceImpl.java:542-567 | the outcome and table are OrderLifecycle.Rejection's; a refund is asked for exactly when a paid order is rejected |
| OrderService.Cancel | sky-server/src/main/java/com/sky/service/impl/OrderServiceImpl.java:576-598 | the outcome and table are OrderLifecycle.Cancel's; a refund is asked for exactly when a paid order is cancelled |
| OrderService.Delivery | sky-server/src/main/java/com/sky/service/impl/OrderServiceImpl.java:607-619 | the outcome and table are OrderLifecycle.Delivery's |
| OrderService.Complete | sky-server/src/main/java/com/sky/service/impl/OrderServiceImpl.java:628-641 | the outcome and table are OrderLifecycle.Complete's |
| OrderTask.TimeoutSweep | sky-server/src/main/java/com/sky/task/OrderTask.java:28-42 | every pending order placed before now minus 15 minutes is cancelled with the timeout reason and cancel time now; every other order is unchanged; none is left timed out |
| OrderTask.TimeoutSweepIdempotent | sky-server/src/main/java/com/sky/task/OrderTask.java:28-42 | a second sweep at the same time selects nothing and changes nothing |
| OrderTask.ProcessTimeoutOrder | sky-server/src/main/java/com/sky/task/OrderTask.java:24-44 | the loop over the selected orders leaves the table TimeoutSweep describes |
| OrderTask.ApplyWrite | sky-server/src/main/java/com/sky/task/OrderTask.java:24-66 | every write to the order table (placing, payment, paySuccess, the user's cancel, confirming, rejecting, the merchant's cancel, delivering, completing, the two scheduled tasks) keeps every order within the values the code writes |
| OrderTask.NoWritesRefund | sky-server/src/main/java/com/sky/service/impl/OrderServiceImpl.java:395-398 | no run of writes from a table of such orders, the empty one included, ever stores pay status REFUND |
| OrderTask.SweepComplete | sky-server/src/main/java/com/sky/task/OrderTask.java:30-42 | cancelling exactly the selected ids gives the sweep's table |
| OrderTask.ProcessDeliveryOrder | sky-server/src/main/java/com/sky/task/OrderTask.java:52-65 | the selected orders are set to COMPLETED in memory only; the table is unchanged |
| OrderTask.DeliverySweepPersisted | sky-server/src/main/java/com/sky/task/OrderTask.java:57-63 | the intended sweep completes every overdue delivery in the table and changes nothing else |
| OrderTask.OverdueDeliveryLeftInProgress | sky-server/src/main/java/com/sky/task/OrderTask.java:57-64 | an overdue delivery is selected but stays DELIVERY_IN_PROGRESS, while the persisted sweep completes it |
| ShoppingCartService.NewLine | sky-server/src/main/java/com/sky/service/impl/ShoppingCartServiceImpl.java:57-72 | a new line takes name, image and price from the dish or set meal, with quantity 1; a missing dish or set meal is a NullPointerException |
| ShoppingCartService.AddToCart | sky-server/src/main/java/com/sky/service/impl/ShoppingCartServiceImpl.java:51-74 | exactly one matching line is bumped by one; otherwise a new line is inserted |
| ShoppingCartService.SubFromCart | sky-server/src/main/java/com/sky/service/impl/ShoppingCartServiceImpl.java:116-128 | the first matching line is deleted at quantity 1 and lowered by one otherwise; no match changes nothing |
| ShoppingCartService.AddNewThenSubRestores | sky-server/src/main/java/com/sky/service/impl/ShoppingCartServiceImpl.java:46-128 | subtracting an item just added as a new line gives the cart back |
| ShoppingCartService.AddExistingThenSubRestores | sky-server/src/main/java/com/sky/service/impl/ShoppingCartServiceImpl.java:46-128 | subtracting an item whose line was just bumped gives the cart back |
| ShoppingCartService.AddShoppingCart | sky-server/src/main/java/com/sky/service/impl/ShoppingCartServiceImpl.java:46-75 | the cart becomes what AddToCart says |
| ShoppingCartService.ShowShoppingCart | sky-server/src/main/java/com/sky/service/impl/ShoppingCartServiceImpl.java:84-91 | the list holds the user's lines and all of them |
| ShoppingCartService.CleanShoppingCart | sky-server/src/main/java/com/sky/service/impl/ShoppingCartServiceImpl.java:99-102 | every line of the user goes and every other line stays |
| ShoppingCartService.SubShoppingCart | sky-server/src/main/java/com/sky/service/impl/ShoppingCartServiceImpl.java:112-130 | the cart becomes what SubFromCart says |
| AddressBookService.UpdateAddress | sky-server/src/main/java/com/sky/service/impl/AddressBookServiceImpl.java:66-68 | the mapper update writes the object's non-null fields to the row with its id, the owner and the default mark only when given; no other row changes and a missing id changes nothing |
| AddressBookService.UpdateKeepsOneDefault | sky-server/src/main/java/com/sky/service/impl/AddressBookServiceImpl.java:66-68 | an update that carries no owner and no default mark keeps every user at one default address at most |
| AddressBookService.UpdateCanAddSecondDefault | sky-server/src/main/java/com/sky/service/impl/AddressBookServiceImpl.java:66-68 | an update that carries the default mark can give a user a second default |
| AddressBookService.Update | sky-server/src/main/java/com/sky/service/impl/AddressBookServiceImpl.java:66-68 | the address table becomes UpdateAddress's |
| AddressBookService.ClearDefaults | sky-server/src/main/java/com/sky/service/impl/AddressBookServiceImpl.java:77-79 | every address of the user loses its default mark; no other address changes |
| AddressBookService.SetDefault | sky-server/src/main/java/com/sky/service/impl/AddressBookServiceImpl.java:76-83 | the chosen address is the user's default and no other address of the user is |
| AddressBookService.SetDefaultUnique | sky-server/src/main/java/com/sky/service/impl/AddressBookServiceImpl.java:76-83 | after setting an existing address as default, the user has exactly one default |
| AddressBookService.SetDefaultKeepsOneDefault | sky-server/src/main/java/com/sky/service/impl/AddressBookServiceImpl.java:76-83 | setDefault keeps every user at one default address at most |
| AddressBookService.Save | sky-server/src/main/java/com/sky/service/impl/AddressBookServiceImpl.java:43-47 | the address is stored for the current user, not as the default |
| AddressBookService.GetById | sky-server/src/main/java/com/sky/service/impl/AddressBookServiceImpl.java:56-58 | the address with that id, or none |
| AddressBookService.SetDefaultAddress | sky-server/src/main/java/com/sky/service/impl/AddressBookServiceImpl.java:76-83 | the two updates leave the table SetDefault describes |
| AddressBookService.DeleteById | sky-server/src/main/java/com/sky/service/impl/AddressBookServiceImpl.java:91-93 | exactly that address goes |
| CategoryService.DeleteCategory | sky-server/src/main/java/com/sky/service/impl/CategoryServiceImpl.java:84-99 | refused while a dish refers to the category, then while a set meal does; otherwise exactly that category goes, and references stay resolved |
| CategoryService.Save | sky-server/src/main/java/com/sky/service/impl/CategoryServiceImpl.java:42-58 | a new category is disabled and stamped with now and the current user |
| CategoryService.DeleteById | sky-server/src/main/java/com/sky/service/impl/CategoryServiceImpl.java:84-99 | the outcome and table are DeleteCategory's |
| CategoryService.Update | sky-server/src/main/java/com/sky/service/impl/CategoryServiceImpl.java:107-118 | the set fields and the update stamp are written; other categories are unchanged |
| CategoryService.StartOrStop | sky-server/src/main/java/com/sky/service/impl/CategoryServiceImpl.java:127-137 | only that category's status and update stamp change |
| DishService.AssignDishId | sky-server/src/main/java/com/sky/service/impl/DishServiceImpl.java:66-68 | every flavour gets the new dish's id, in place |
| DishService.SaveWithFlavor | sky-server/src/main/java/com/sky/service/impl/DishServiceImpl.java:52-72 | the dish is inserted, and then every supplied flavour under its id; the dish counter advances by one and the flavour counter by the number of flavours |
| DishService.CheckDeletable | sky-server/src/main/java/com/sky/service/impl/DishServiceImpl.java:106-111 | the check ends in success, a NullPointerException for a missing dish, or DISH_ON_SALE |
| DishService.CheckDeletableOk | sky-server/src/main/java/com/sky/service/impl/DishServiceImpl.java:106-111 | the check passes exactly when every listed dish exists and is not on sale |
| DishService.SetmealIdsByDishIds | sky-server/src/main/java/com/sky/service/impl/DishServiceImpl.java:113 | one set-meal id per link to a listed dish, each from such a link |
| DishService.SetmealIdsNonEmpty | sky-server/src/main/java/com/sky/service/impl/DishServiceImpl.java:113-116 | the set-meal id list is non-empty exactly when a set meal uses a listed dish |
| DishService.DeleteDishes | sky-server/src/main/java/com/sky/service/impl/DishServiceImpl.java:104-124 | the on-sale check comes first, then DISH_BE_RELATED_BY_SETMEAL; deletion happens exactly when both pass and removes the listed dishes and their flavours |
| DishService.CheckDishes | sky-server/src/main/java/com/sky/service/impl/DishServiceImpl.java:106-111 | the checking loop computes CheckDeletable |
| DishService.DeleteDishesAndFlavors | sky-server/src/main/java/com/sky/service/impl/DishServiceImpl.java:118-123 | the deleting loop leaves WithoutDishes and WithoutFlavorsOfDishes |
| DishService.DeleteBatch | sky-server/src/main/java/com/sky/service/impl/DishServiceImpl.java:104-124 | the outcome and tables are DeleteDishes' |
| DishService.UpdateWithFlavor | sky-server/src/main/java/com/sky/service/impl/DishServiceImpl.java:162-182 | the dish's set fields are written; a non-empty flavour list replaces the dish's flavours, and an empty one keeps them |
| DishService.FlavorsReplaced | sky-server/src/main/java/com/sky/service/impl/DishServiceImpl.java:172-181 | after the replacement the dish's flavours are exactly the new rows, in order |
| DishService.CascadeReachesEverySetmeal | sky-server/src/main/java/com/sky/service/impl/DishServiceImpl.java:203-221 | disabling a dish disables every set meal linked to it and leaves the others unchanged |
| DishService.DisableAll | sky-server/src/main/java/com/sky/service/impl/DishServiceImpl.java:212-220 | the set meals with the given ids are disabled and every other set meal is unchanged |
| DishService.DisableSetmeals | sky-server/src/main/java/com/sky/service/impl/DishServiceImpl.java:212-220 | the cascade loop leaves DisableAll's table |
| DishService.StartOrStop | sky-server/src/main/java/com/sky/service/impl/DishServiceImpl.java:194-223 | the dish's status is written; DISABLE also disables every set meal using the dish |
| DishService.List | sky-server/src/main/java/com/sky/service/impl/DishServiceImpl.java:231-242 | the result holds the enabled dishes of the category, all of them; with a null category, every enabled dish |
| SetmealService.AssignSetmealId | sky-server/src/main/java/com/sky/service/impl/SetmealServiceImpl.java:61-63 | every link gets the new set meal's id, in place |
| SetmealService.SaveWithDish | sky-server/src/main/java/com/sky/service/impl/SetmealServiceImpl.java:50-66 | the set meal is inserted and its counter advances by one; with the link mapper wired every link follows under its id and the link counter advances by the number of links, and unwired it is a NullPointerException with the set meal left in place and the links untouched |
| SetmealService.CheckDeletable | sky-server/src/main/java/com/sky/service/impl/SetmealServiceImpl.java:104-109 | the check ends in success, a NullPointerException for a missing set meal, or SETMEAL_ON_SALE |
| SetmealService.CheckDeletableOk | sky-server/src/main/java/com/sky/service/impl/SetmealServiceImpl.java:104-109 | the check passes exactly when every listed set meal exists and is not on sale |
| SetmealService.DeleteSetmeals | sky-server/src/main/java/com/sky/service/impl/SetmealServiceImpl.java:102-115 | a failed check changes nothing; otherwise the wired mapper deletes the set meals and the links whose dish id is a listed id, and unwired the first set meal is deleted before a NullPointerException |
| SetmealService.CheckSetmeals | sky-server/src/main/java/com/sky/service/impl/SetmealServiceImpl.java:104-109 | the checking loop computes CheckDeletable |
| SetmealService.DeleteSetmealsAndLinks | sky-server/src/main/java/com/sky/service/impl/SetmealServiceImpl.java:111-114 | the deleting loop leaves WithoutSetmeals and WithoutLinksOfDishes |
| SetmealService.DeleteBatch | sky-server/src/main/java/com/sky/service/impl/SetmealServiceImpl.java:102-115 | the outcome and tables are DeleteSetmeals' |
| SetmealService.DeleteKeepsOwnLinks | sky-server/src/main/java/com/sky/service/impl/SetmealServiceImpl.java:113 | a deleted set meal's link to a dish whose id is not listed survives the deletion, naming a set meal that is gone |
| SetmealService.DeleteBatchOrphansLinks | sky-server/src/main/java/com/sky/service/impl/SetmealServiceImpl.java:113 | concrete tables where deletion keeps the deleted set meal's link and removes another set meal's link |
| SetmealService.DeleteSetmealsIntended | sky-server/src/main/java/com/sky/service/impl/SetmealServiceImpl.java:102-115 | the intended deletion keeps every link naming an existing set meal |
| SetmealService.Update | sky-server/src/main/java/com/sky/service/impl/SetmealServiceImpl.java:143-161 | the set meal's set fields are written; wired, the links whose dish id is the set meal's id are deleted and the new links added under it; unwired, a NullPointerException after the first write |
| SetmealService.UpdateKeepsOldLinks | sky-server/src/main/java/com/sky/service/impl/SetmealServiceImpl.java:152 | as written, an old link of the set meal survives the update |
| SetmealService.UpdatedLinksIntended | sky-server/src/main/java/com/sky/service/impl/SetmealServiceImpl.java:150-160 | the intended replacement keeps every other set meal's links |
| SetmealService.UpdateIntendedReplaces | sky-server/src/main/java/com/sky/service/impl/SetmealServiceImpl.java:150-160 | after the intended replacement the set meal's links are exactly the new rows, in order |
| SetmealService.DishesOfSetmeal | sky-server/src/main/java/com/sky/service/impl/SetmealServiceImpl.java:178 | every dish listed belongs to the set meal through a link |
| SetmealService.DishesOfSetmealBlocked | sky-server/src/main/java/com/sky/service/impl/SetmealServiceImpl.java:178-186 | the dish list holds a disabled dish exactly when a dish of the set meal is disabled |
| SetmealService.SetStatus | sky-server/src/main/java/com/sky/service/impl/SetmealServiceImpl.java:175-196 | ENABLE goes through the dish mapper (a NullPointerException when it is not wired) and is refused with SETMEAL_ENABLE_FAILED while a dish is disabled; otherwise the status is written and nothing else changes |
| SetmealService.CheckDishesOnSale | sky-server/src/main/java/com/sky/service/impl/SetmealServiceImpl.java:179-187 | the loop succeeds exactly when no listed dish is disabled |
| SetmealService.StartOrStop | sky-server/src/main/java/com/sky/service/impl/SetmealServiceImpl.java:175-196 | the outcome and table are SetStatus's |
| SetmealService.UnwiredEnableAlwaysFails | sky-server/src/main/java/com/sky/service/impl/SetmealServiceImpl.java:176-178 | with the fields as declared, ENABLE always fails and changes nothing, while DISABLE still works |
| SetmealService.WiredEnableGuard | sky-server/src/main/java/com/sky/service/impl/SetmealServiceImpl.java:176-195 | wired, enabling succeeds exactly when no dish of the set meal is disabled, and a refused set meal is unchanged |
| EmployeeService.FindByUsername | sky-server/src/main/java/com/sky/service/impl/EmployeeServiceImpl.java:45 | a found employee has the username; a failure is null or too many results |
| EmployeeService.FindByUsernameExact | sky-server/src/main/java/com/sky/service/impl/EmployeeServiceImpl.java:45-51 | the lookup is null exactly when no employee has the username, and finds the only one that has it |
| EmployeeService.Login | sky-server/src/main/java/com/sky/service/impl/EmployeeServiceImpl.java:40-68 | a successful login returns a stored employee with that username, matching digest and an account that is not disabled; failures are ACCOUNT_NOT_FOUND, PASSWORD_ERROR, ACCOUNT_LOCKED or too many results |
| EmployeeService.LoginSucceeds | sky-server/src/main/java/com/sky/service/impl/EmployeeServiceImpl.java:44-67 | for a unique username, a wrong password is refused before a locked account, and otherwise the stored employee is returned |
| EmployeeService.LoginUnknownUser | sky-server/src/main/java/com/sky/service/impl/EmployeeServiceImpl.java:48-51 | an unknown username is ACCOUNT_NOT_FOUND whatever the password |
| EmployeeService.NewEmployee | sky-server/src/main/java/com/sky/service/impl/EmployeeServiceImpl.java:72-75 | a new employee is enabled with the digest of "123456" and the DTO's fields |
| EmployeeService.Save | sky-server/src/main/java/com/sky/service/impl/EmployeeServiceImpl.java:71-77 | the new employee is inserted under the next id |
| EmployeeService.SavedEmployeeCanLogIn | sky-server/src/main/java/com/sky/service/impl/EmployeeServiceImpl.java:71-77 | a saved employee with a fresh username can log in with the default password |
| EmployeeService.Updated | sky-server/src/main/java/com/sky/service/impl/EmployeeServiceImpl.java:112 | an update changes only that employee and never its password |
| EmployeeService.StartOrStop | sky-server/src/main/java/com/sky/service/impl/EmployeeServiceImpl.java:105-113 | the update writes only the status |
| EmployeeService.StartOrStopChangesOnlyStatus | sky-server/src/main/java/com/sky/service/impl/EmployeeServiceImpl.java:105-113 | the account keeps everything but its status |
| EmployeeService.DisabledCannotLogIn | sky-server/src/main/java/com/sky/service/impl/EmployeeServiceImpl.java:61-64 | a disabled account is refused as locked even with the right password, and enabling it lets it in |
| EmployeeService.GetById | sky-server/src/main/java/com/sky/service/impl/EmployeeServiceImpl.java:122-128 | the stored employee with its password replaced by "****"; a missing id is a NullPointerException |
| EmployeeService.FromDto | sky-server/src/main/java/com/sky/service/impl/EmployeeServiceImpl.java:138-140 | the object copied from the DTO carries no status |
| EmployeeService.Update | sky-server/src/main/java/com/sky/service/impl/EmployeeServiceImpl.java:136-143 | the DTO's non-null fields are written |
| EmployeeService.UpdateKeepsCredentials | sky-server/src/main/java/com/sky/service/impl/EmployeeServiceImpl.java:136-143 | an update never changes the password or the status |
| ReportService.DateList | sky-server/src/main/java/com/sky/service/impl/ReportServiceImpl.java:52-58 | for begin <= end the list is begin, begin+1, ..., end |
| ReportService.DateLoop | sky-server/src/main/java/com/sky/service/impl/ReportServiceImpl.java:52-58 | the dates the loop as written collects within a number of steps, or none when it has not stopped |
| ReportService.DateLoopNeverStops | sky-server/src/main/java/com/sky/service/impl/ReportServiceImpl.java:55-58 | with begin after end the loop as written never stops, whatever the number of steps |
| ReportService.DateLoopStops | sky-server/src/main/java/com/sky/service/impl/ReportServiceImpl.java:52-58 | with begin <= end the loop as written stops after end - begin steps with the dates begin to end |
| ReportService.CheckedDateList | sky-server/src/main/java/com/sky/service/impl/ReportServiceImpl.java:52-58 | a begin after end is refused; otherwise the list is begin, begin+1, ..., end |
| ReportService.SumByMap | sky-server/src/main/java/com/sky/service/impl/ReportServiceImpl.java:69-77 | the sum is null exactly when no completed order falls in the range |
| ReportService.DayTurnover | sky-server/src/main/java/com/sky/service/impl/ReportServiceImpl.java:64-79 | a day with no completed order has turnover 0 |
| ReportService.TurnoverCoversEachOrder | sky-server/src/main/java/com/sky/service/impl/ReportServiceImpl.java:77-79 | with non-negative amounts, each completed order of the day is covered by the day's turnover |
| ReportService.DayQuery | sky-server/src/main/java/com/sky/service/impl/ReportServiceImpl.java:64-79 | one day's turnover as DayTurnover defines it: the sum over the day's completed orders, a null sum read as 0 |
| ReportService.TurnoverList | sky-server/src/main/java/com/sky/service/impl/ReportServiceImpl.java:62-82 | one turnover per date, in order |
| ReportService.TurnoverStatistics | sky-server/src/main/java/com/sky/service/impl/ReportServiceImpl.java:50-88 | the dates of the range and one turnover per date |
| ReportService.ValidWithinAll | sky-server/src/main/java/com/sky/service/impl/ReportServiceImpl.java:169-172 | a day never has more completed orders than orders |
| ReportService.CountByMapCounts | sky-server/src/main/java/com/sky/service/impl/ReportServiceImpl.java:208-219 | the order count (`CountByMap`) is the number of orders placed in `[begin, end]`, restricted to the given status when one is given |
| ReportService.CountByMapZero | sky-server/src/main/java/com/sky/service/impl/ReportServiceImpl.java:208-219 | the count is zero exactly when no order below the counter was placed in the range with the given status |
| ReportService.DayCounts | sky-server/src/main/java/com/sky/service/impl/ReportServiceImpl.java:166-172 | one day's order count and completed-order count, the latter never larger |
| ReportService.OrderCountLists | sky-server/src/main/java/com/sky/service/impl/ReportServiceImpl.java:165-177 | one order count and one valid count per date, the valid one never larger |
| ReportService.OrderStatistics | sky-server/src/main/java/com/sky/service/impl/ReportServiceImpl.java:152-196 | per-day lists as long as the date list; the totals are their sums, and the valid total never exceeds the total |
| ReportService.UsersUpTo | sky-server/src/main/java/com/sky/service/impl/ReportServiceImpl.java:121-124 | the count with an end only is at most the number of users |
| ReportService.UsersBetween | sky-server/src/main/java/com/sky/service/impl/ReportServiceImpl.java:127-129 | the count with begin and end is at most the number of users |
| ReportService.UsersUpToNextDay | sky-server/src/main/java/com/sky/service/impl/ReportServiceImpl.java:121-129 | the users created by the end of a day are those created by the end of the day before plus that day's |
| ReportService.NewWithinTotal | sky-server/src/main/java/com/sky/service/impl/ReportServiceImpl.java:121-129 | a day's new users are among those created by its end |
| ReportService.UserCountLists | sky-server/src/main/java/com/sky/service/impl/ReportServiceImpl.java:115-133 | both per-day counts for every date, in order |
| ReportService.UserStatistics | sky-server/src/main/java/com/sky/service/impl/ReportServiceImpl.java:100-140 | as written, newUserList holds the users created by each day's end and totalUserList those created during the day |
| ReportService.UserListsSwapped | sky-server/src/main/java/com/sky/service/impl/ReportServiceImpl.java:124-132 | one user created on day 0 gives, for day 1, one new user and a total of none |
| ReportService.UserStatisticsIntended | sky-server/src/main/java/com/sky/service/impl/ReportServiceImpl.java:100-140 | the intended report: new users never exceed the total, and each day's total is the day before's plus that day's new users |
| ReportService.Names | sky-server/src/main/java/com/sky/service/impl/ReportServiceImpl.java:241 | one name per row |
| ReportService.Numbers | sky-server/src/main/java/com/sky/service/impl/ReportServiceImpl.java:245 | one number per row |
| ReportService.ProjectionsAligned | sky-server/src/main/java/com/sky/service/impl/ReportServiceImpl.java:241-246 | the name and number lists zip back into the query's rows |
| ExceptionHandler.HandleBusiness | sky-server/src/main/java/com/sky/handler/GlobalExceptionHandler.java:28-32 | a business exception gives an error response with exactly its message |
| ExceptionHandler.Pieces | sky-server/src/main/java/com/sky/handler/GlobalExceptionHandler.java:45 | splitting yields at least one piece, none holding the separator |
| ExceptionHandler.JoinPieces | sky-server/src/main/java/com/sky/handler/GlobalExceptionHandler.java:45 | joining the pieces with the separator gives the message back |
| ExceptionHandler.DropTrailingEmpty | sky-server/src/main/java/com/sky/handler/GlobalExceptionHandler.java:45 | split keeps a prefix of the pieces that does not end in an empty string, and every piece it drops is empty |
| ExceptionHandler.HandleSqlIntegrity | sky-server/src/main/java/com/sky/handler/GlobalExceptionHandler.java:40-52 | without "Duplicate entry" the response is UNKNOWN_ERROR; with it, a split of fewer than three tokens is an index-out-of-range failure and otherwise the response is the third token followed by "已存在" |
| ExceptionHandler.DuplicateEntryNamesValue | sky-server/src/main/java/com/sky/handler/GlobalExceptionHandler.java:44-48 | for "Duplicate entry <value> <rest>" with a space-free value, the response is that value followed by "已存在" |
| ExceptionHandler.TwoWordMessageFails | sky-server/src/main/java/com/sky/handler/GlobalExceptionHandler.java:45-46 | a two-token message containing "Duplicate entry" makes the handler fail on the index |
| ExceptionHandler.ShortDuplicateMessageFails | sky-server/src/main/java/com/sky/handler/GlobalExceptionHandler.java:45-46 | the message "Duplicate entry" alone fails on the index |

## Left out

- The WeChat payment request (commented out in `OrderServiceImpl.payment`, whose reply is an empty object), the payment result object `OrderPaymentVO`, the delivery-range check through the Baidu Maps HTTP API (`checkOutOfRange`), the WeChat refund, the WebSocket server and the payment notification decryption are foreign calls. A refund is a returned flag and a push is a returned `Notification`.
- Reads that only page or project rows are not modelled: page queries through PageHelper, `details`, `getByIdWithFlavor`, `listWithFlavor`, `getByIdWithDish`, set-meal `list`, `getDishItemById`, category `list`, and address-book `list`.
- `WorkspaceServiceImpl`, the turnover amounts as `Double`, and `orderCompletionRate` are floating point. Turnover is an integer sum of amounts in cents.
- `exportBusinessData` writes an Excel workbook to a servlet stream; it is I/O only.
- The `StringUtils.join` of the report lists into comma-separated text is not modelled; the lists themselves are.
- The timestamp and actor fields that `AutoFillAspect` fills by reflection are not modelled. Category save, update and startOrStop set them explicitly and do stamp them.
- DishService.List: the mapper XML of DishMapper.list is not part of this model. It is assumed to drop the category condition when the category is null.
- ReportService.SumByMap, ReportService.CountByMap, ReportService.UsersUpTo, ReportService.UsersBetween: the mapper XML of sumByMap and countByMap is not part of this model. The statements are assumed to filter on order time or user creation time in `[begin, end]` and on the status when one is given.
- SetmealService.DishesOfSetmeal: DishMapper.getBySetmealId is not part of this model. It is assumed to join the set meal's links with the dish table, in link order.
- EmployeeService.GetById, EmployeeService.Updated: EmployeeMapper.update is not part of this model. It is assumed to write the non-null fields.
- ReportService.Names: getSalesTop10's query is not part of this model. Its rows are a parameter.
- ReportService.UserStatistics: the users table is not part of the store. Its creation times are a parameter.
- SetmealMapper insert/update/getById/deleteById, the SetmealDishMapper statements, DishMapper.getBySetmealId, DishFlavorMapper and OrderMapper.countStatus are assumed to do what their names say. Their SQL is not part of this model.
- Transactions and concurrency are not modelled; each service call is one atomic step. An exception part-way through a method that is not transactional keeps the writes made before it, which is what the set-meal model shows. The `@Transactional` rollback of the dish service is not modelled: its loops check before they write.
- Order-number uniqueness is not modelled; the number (`System.currentTimeMillis()`) is a parameter.
- Java `Integer`/`Long` overflow is not modelled: ids, counts and sums are unbounded integers.
- Each call reads the clock once. The code calls `LocalDateTime.now()` more than once in some methods, which can differ by microseconds.
- DishService.DeleteBatch: with an empty id list, the SQL `in ()` of getSetmealIdsByDishIds is assumed to return nothing rather than fail.
- ReportService.DateList: requires begin <= end, because with begin after end the loop never ends (see "## Findings"). The statistics methods that call it require the same.
- The password digest is the parameter `hash`; MD5 itself is not modelled.

## Findings

| source | as written | input that shows it | evidently intended | confidence | as-written member | corrected member |
|---|---|---|---|---|---|---|
| sky-server/src/main/java/com/sky/service/impl/OrderServiceImpl.java:395-400 | user cancellation stores CANCELLED (6) in payStatus, overwriting REFUND; it stamps orderTime and never sets the status | a TO_BE_CONFIRMED paid order: after cancellation its status is still 2 and its payStatus 6 | status CANCELLED, cancel time now, payStatus REFUND for a refunded order | high (not executed) | OrderLifecycle.UserCancelLeavesStatus | OrderLifecycle.UserCancelIntended |
| sky-server/src/main/java/com/sky/service/impl/OrderServiceImpl.java:550-566 | rejection refunds a paid order but leaves it PAID | a TO_BE_CONFIRMED, PAID order rejected: CANCELLED and PAID | payStatus REFUND after the refund | high (not executed) | OrderLifecycle.RejectionKeepsPaid | OrderLifecycle.RejectionIntended |
| sky-server/src/main/java/com/sky/service/impl/OrderServiceImpl.java:525-532 | confirm has no status guard | a COMPLETED order confirmed becomes CONFIRMED | only TO_BE_CONFIRMED can be confirmed | medium (not executed) | OrderLifecycle.TerminalStatesReopen | OrderLifecycle.ConfirmIntended |
| sky-server/src/main/java/com/sky/task/OrderTask.java:60-64 | the delivery sweep sets COMPLETED on the fetched objects but never calls update | any DELIVERY_IN_PROGRESS order placed over an hour ago stays in progress | overdue deliveries completed in the table | high (not executed) | OrderTask.OverdueDeliveryLeftInProgress | OrderTask.DeliverySweepPersisted |
| sky-server/src/main/java/com/sky/service/impl/SetmealServiceImpl.java:113 | deleteBatch removes links with deleteByDishId(setmealId) | set meals 1 and 2, links (1 -> dish 7) and (2 -> dish 1): deleting set meal 1 keeps the first link and deletes the second | delete the links of the deleted set meals | high (not executed) | SetmealService.DeleteBatchOrphansLinks | SetmealService.DeleteSetmealsIntended |
| sky-server/src/main/java/com/sky/service/impl/SetmealServiceImpl.java:152 | update removes old links with deleteByDishId(setmealId) | a set meal whose old link names a dish with a different id keeps that link after the update | the set meal's links are exactly the new ones | high (not executed) | SetmealService.UpdateKeepsOldLinks | SetmealService.UpdateIntendedReplaces |
| sky-server/src/main/java/com/sky/service/impl/SetmealServiceImpl.java:36-37 | setmealDishMapper and dishMapper lack @Autowired and stay null | startOrStop(ENABLE, id) for any id: NullPointerException | both mappers injected | high (not executed) | SetmealService.UnwiredEnableAlwaysFails | SetmealService.WiredEnableGuard |
| sky-server/src/main/java/com/sky/service/impl/ReportServiceImpl.java:124-132 | the count with an end only goes to newUserList and the count within the day to totalUserList | one user created on day 0, report for day 1: new 1, total 0 | new users within the day, total users by its end | high (not executed) | ReportService.UserListsSwapped | ReportService.UserStatisticsIntended |
| sky-server/src/main/java/com/sky/service/impl/ReportServiceImpl.java:52-58 | the date loop stops only when the day equals end, and the controller passes begin and end unchecked | begin = end + 1: the day moves away from end and the loop runs until memory or the date range is exhausted | refuse a range whose begin is after its end | high (not executed) | ReportService.DateLoopNeverStops | ReportService.CheckedDateList |
| sky-server/src/main/java/com/sky/service/impl/OrderServiceImpl.java:576-598 | merchant cancel has no status guard and refunds a paid order but leaves it PAID | a CONFIRMED, PAID order cancelled: CANCELLED and still PAID | only PENDING_PAYMENT or TO_BE_CONFIRMED can be cancelled, and a refunded order is marked REFUND | high (not executed) | OrderLifecycle.CancelKeepsPaid | OrderLifecycle.CancelIntended |
| sky-server/src/main/java/com/sky/service/impl/OrderServiceImpl.java:212-232 | payment sets TO_BE_CONFIRMED with no guard; its "already paid" branch reads an empty object and is never taken | a COMPLETED, PAID order: payment returns normally and the order is TO_BE_CONFIRMED again | refuse an order that is already paid with "该订单已支付" | medium (not executed) | OrderLifecycle.PaymentReopens | OrderLifecycle.PaymentIntended |
