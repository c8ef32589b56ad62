# Restaurant order lifecycle (Comanda Digital backend) in Dafny

This project models the order lifecycle of the Comanda Digital restaurant
backend (a Spring service layer, written in Java) and proves properties of it.
An order starts as a DRAFT, which is the customer's cart. While it is a cart,
lines are added and removed: one line per dish, with a quantity and the unit
price copied from the dish. `finalizeOrder` then snapshots the client's name
and delivery address and moves the order to RECEIVED. The kitchen moves it
one status at a time, forward with `nextStep` or backward with
`previousStep`, over RECEIVED, IN_PREPARATION, READY and ON_THE_WAY.
ON_THE_WAY and DELIVERED cannot be moved back. An administrative
`updateStatus` can set any status at all.

Layout, one module per file:

- `outcomes.dfy` (`Outcomes`): `Option`, `Result`, and `Failure`. `Failure`
  has one constructor per distinct failure. `Failure.Kind` gives the
  exception class each one is raised as: not-found, illegal-state or
  illegal-argument.
- `order_status.dfy` (`OrderStatuses`): the six statuses, their declaration
  order and ordinals.
- `order_model.dfy` (`OrderModel`): the value types (address, dish, order
  line, client profile), the `Client` and `Order` entities as classes, the
  value view `OrderState` of an order, and the status filter that the
  queries use.
- `cart.dfy` (`Cart`): the cart protocol as functions on `OrderState`: add,
  remove, finalize and the status override. Also the line-list invariant
  (at most one line per dish, every quantity positive) and the lemmas about
  these operations.
- `kitchen.dfy` (`Kitchen`): the transition table, runs of kitchen requests,
  the kitchen board filter and their lemmas.
- `services.dfy` (`Services`): the order repository and the two services as
  classes. Each mutating method other than `Create` loads one `Order` entity,
  checks it, updates
  its fields in place and leaves every other stored order unchanged. Its
  postcondition ties the entity's new value to the `Cart` or `Kitchen`
  function.
- `lifecycle.dfy` (`Lifecycle`): one end-to-end scenario over the pure
  functions.

In these places the code behaves in ways worth noting:

- A missing client or address on finalization raises an illegal-state error
  (`MissingClientOrAddress`). There is no separate missing-address kind.
- Removal checks, in this order: the status, then that a line exists for the
  dish, then that the quantity is positive. So a missing line with a
  non-positive quantity reports not-found.
- `findByStatus` reports not-found for an empty result whatever the status
  asked for. `findHistory` does the same.
- The code does not keep the rule "snapshots unset exactly while DRAFT".
  `previousStep` from RECEIVED hands back a DRAFT that still carries its
  snapshots (`Kitchen.KitchenMovesAndSnapshots`). `updateStatus` can move a
  fresh cart past DRAFT without any snapshot (`Cart.OverrideBypassesFinalize`).
- Adding an item does not validate the quantity (`Cart.AddAcceptsNonPositiveQuantity`).
  At most one line per dish holds after any add or removal
  (`Cart.AddPreservesUniqueDishes`, `Cart.RemovePreservesUniqueDishes`).
  Only the positive-quantity half of the line-list invariant depends on
  positive adds.

## Model

| member | source | states |
|---|---|---|
| `OrderStatuses.Ordinal` | src/main/java/com/ibeus/Comanda/Digital/enums/OrderStatus.java:3-10 | each status has a position below 6 in the declaration order; DRAFT alone is first and DELIVERED alone is last |
| `OrderStatuses.FromOrdinal` | src/main/java/com/ibeus/Comanda/Digital/enums/OrderStatus.java:3-10 | every position 0..5 is the position of some status |
| `OrderStatuses.StatusesAreExactlySix` | src/main/java/com/ibeus/Comanda/Digital/enums/OrderStatus.java:3-10 | the enumeration is closed and has exactly six values: every status is listed, and ordinals are a bijection onto 0..5 |
| `OrderStatuses.DeclarationOrderIsTotal` | src/main/java/com/ibeus/Comanda/Digital/enums/OrderStatus.java:4-9 | declaration order is a strict total order; DRAFT is before every other status (initial) and nothing comes after DELIVERED (final) |
| `Outcomes.Failure.Kind` | src/main/java/com/ibeus/Comanda/Digital/service/OrderService.java:54-182 | missing orders, dishes and lines, no registered client and an empty status or history query are not-found; the draft guards, the missing client or address at finalization and the kitchen guards (KitchenService.java:48-83) are illegal-state; only the non-positive removal is illegal-argument |
| `OrderModel.NewDraft` | src/main/java/com/ibeus/Comanda/Digital/service/OrderService.java:88-91 | a new order is a DRAFT with no lines, bound to the given client and instant, and it satisfies the snapshot rule (no snapshots) |
| `OrderModel.WithStatusIn` | src/main/java/com/ibeus/Comanda/Digital/service/OrderService.java:51-56 | a status query returns exactly the stored orders whose status is in the requested set, each with its stored value |
| `Cart.LineIndex` | src/main/java/com/ibeus/Comanda/Digital/service/OrderService.java:110-113 | the line found for a dish is the first line for that dish; none is found exactly when the order has no line for it |
| `Cart.LineIndexInUniqueCart` | src/main/java/com/ibeus/Comanda/Digital/service/OrderService.java:110-113 | in a cart with one line per dish, the line found is the only line for the dish |
| `Cart.AddItem` | src/main/java/com/ibeus/Comanda/Digital/service/OrderService.java:103-131 | a non-DRAFT order fails with illegal-state; an unknown dish fails with not-found; otherwise it succeeds, changes only the lines, returns a line for the dish that is in the order, and adds a line exactly when the dish had none |
| `Cart.AddMergesExistingLine` | src/main/java/com/ibeus/Comanda/Digital/service/OrderService.java:110-119 | when the dish has a line, that line's quantity becomes old plus requested; its price, its position, the other lines and the number of lines are unchanged |
| `Cart.AddAppendsNewLine` | src/main/java/com/ibeus/Comanda/Digital/service/OrderService.java:121-131 | when the dish has no line, exactly one line is appended, with the requested quantity and the dish's current price; earlier lines stay |
| `Cart.AddPreservesCartInvariant` | src/main/java/com/ibeus/Comanda/Digital/service/OrderService.java:110-131 | adding a positive quantity keeps at most one line per dish and every quantity positive |
| `Cart.AddPreservesUniqueDishes` | src/main/java/com/ibeus/Comanda/Digital/service/OrderService.java:110-128 | adding any quantity, of any sign, keeps at most one line per dish |
| `Cart.AddAcceptsNonPositiveQuantity` | src/main/java/com/ibeus/Comanda/Digital/service/OrderService.java:121-128 | add does not validate the quantity: a non-positive quantity for a new dish is stored and breaks the positive-quantity invariant |
| `Cart.AddTwiceMerges` | src/main/java/com/ibeus/Comanda/Digital/service/OrderService.java:110-126 | two adds of one dish equal one add of the summed quantity; the line keeps the price read at the first add even when the dish price changed in between |
| `Cart.RemoveItem` | src/main/java/com/ibeus/Comanda/Digital/service/OrderService.java:141-163 | the failures come in the source's order: non-DRAFT is illegal-state, then a missing line is not-found, then a quantity at or below 0 is illegal-argument; otherwise it succeeds, changes only the lines and removes at most one line |
| `Cart.RemoveDeletesLine` | src/main/java/com/ibeus/Comanda/Digital/service/OrderService.java:156-159 | removing at least the line's quantity deletes that line, and no line for the dish remains |
| `Cart.RemoveDecrementsLine` | src/main/java/com/ibeus/Comanda/Digital/service/OrderService.java:160-163 | removing less than the line's quantity leaves the line in place with quantity minus removed, at the same price |
| `Cart.RemoveKeepsOtherLines` | src/main/java/com/ibeus/Comanda/Digital/service/OrderService.java:156-163 | a removal keeps every line for another dish as it was and adds none |
| `Cart.RemovePreservesCartInvariant` | src/main/java/com/ibeus/Comanda/Digital/service/OrderService.java:150-163 | removal keeps at most one line per dish, and every remaining quantity stays positive |
| `Cart.RemovePreservesUniqueDishes` | src/main/java/com/ibeus/Comanda/Digital/service/OrderService.java:156-163 | removal keeps at most one line per dish, whatever quantities the cart holds |
| `Cart.AddThenRemoveRestoresCart` | src/main/java/com/ibeus/Comanda/Digital/service/OrderService.java:110-163 | removing the quantity just added gives back the original cart, whether or not the dish already had a line |
| `Cart.FormatAddress` | src/main/java/com/ibeus/Comanda/Digital/service/OrderService.java:189-197 | the address snapshot starts with "street, number, " and ends with ". Complemento: " followed by the complement, or by nothing when there is no complement |
| `Cart.Finalize` | src/main/java/com/ibeus/Comanda/Digital/service/OrderService.java:175-200 | non-DRAFT fails; a missing client or address fails; every failure is illegal-state; otherwise the status becomes RECEIVED, the name snapshot is the client's name, the address snapshot is the formatted address, and nothing else changes |
| `Cart.FinalizedCartIsFrozen` | src/main/java/com/ibeus/Comanda/Digital/service/OrderService.java:175-177 | a finalized order has both snapshots, and any add, any removal and a second finalization on it fail with illegal-state |
| `Cart.SetStatus` | src/main/java/com/ibeus/Comanda/Digital/service/OrderService.java:212 | the override sets the requested status, whatever it was before, and restoring the old status gives back the order: nothing else differs |
| `Cart.OverrideBypassesFinalize` | src/main/java/com/ibeus/Comanda/Digital/service/OrderService.java:208-215 | the override keeps the lines and the address snapshot, and a later override replaces an earlier one; on a fresh cart it yields a non-DRAFT order with no snapshots |
| `Kitchen.KitchenStatusesAreTheMiddle` | src/main/java/com/ibeus/Comanda/Digital/service/KitchenService.java:30-35 | the board statuses are exactly those other than DRAFT and DELIVERED, which are positions 1 to 4 |
| `Kitchen.NextStatus` | src/main/java/com/ibeus/Comanda/Digital/service/KitchenService.java:50-57 | succeeds exactly on RECEIVED, IN_PREPARATION and READY, moving to the next position; it never yields DRAFT or DELIVERED; DRAFT fails as not finalized, ON_THE_WAY and DELIVERED as out of the kitchen, both illegal-state |
| `Kitchen.PreviousStatus` | src/main/java/com/ibeus/Comanda/Digital/service/KitchenService.java:72-83 | succeeds exactly on RECEIVED, IN_PREPARATION and READY, moving to the previous position (RECEIVED goes to DRAFT); ON_THE_WAY and DELIVERED fail at the gate, DRAFT as already at the start |
| `Kitchen.MovesAreAdjacent` | src/main/java/com/ibeus/Comanda/Digital/service/KitchenService.java:50-82 | a successful move lands on the declaration-order successor or predecessor |
| `Kitchen.NextStep` | src/main/java/com/ibeus/Comanda/Digital/service/KitchenService.java:47-60 | on an order, nextStep changes only the status, and fails with the status table's failure |
| `Kitchen.PreviousStep` | src/main/java/com/ibeus/Comanda/Digital/service/KitchenService.java:69-86 | on an order, previousStep changes only the status, and fails with the status table's failure |
| `Kitchen.StepsAreInverse` | src/main/java/com/ibeus/Comanda/Digital/service/KitchenService.java:50-82 | next then previous is the identity on RECEIVED and IN_PREPARATION; previous then next is the identity on IN_PREPARATION and READY; whenever both moves succeed they cancel |
| `Kitchen.GateIsFinal` | src/main/java/com/ibeus/Comanda/Digital/service/KitchenService.java:72-76 | from ON_THE_WAY or DELIVERED, no series of kitchen requests changes the status |
| `Kitchen.KitchenNeverDelivers` | src/main/java/com/ibeus/Comanda/Digital/service/KitchenService.java:50-57 | no series of kitchen requests reaches DELIVERED from any other status |
| `Kitchen.DraftIsStuckForKitchen` | src/main/java/com/ibeus/Comanda/Digital/service/KitchenService.java:56 | every kitchen request on a DRAFT is refused, so no series of them leaves DRAFT |
| `Kitchen.KitchenOrders` | src/main/java/com/ibeus/Comanda/Digital/service/KitchenService.java:30-39 | the board holds exactly the orders with status RECEIVED, IN_PREPARATION, READY or ON_THE_WAY, never a DRAFT or a DELIVERED one |
| `Kitchen.BoardCartsAndHistoryPartition` | src/main/java/com/ibeus/Comanda/Digital/service/KitchenService.java:30-39 | carts, board and history (delivered orders) are pairwise disjoint and together hold every stored order |
| `Kitchen.KitchenMovesAndSnapshots` | src/main/java/com/ibeus/Comanda/Digital/service/KitchenService.java:77-81 | nextStep keeps the snapshot rule; previousStep keeps it except from RECEIVED, which yields a DRAFT that still holds its snapshots |
| `Services.OrderService.FindByStatus` | src/main/java/com/ibeus/Comanda/Digital/service/OrderService.java:51-57 | fails with not-found exactly when no stored order has the status; otherwise returns exactly the stored orders with that status, with their current values |
| `Services.OrderService.FindHistory` | src/main/java/com/ibeus/Comanda/Digital/service/OrderService.java:63-74 | fails with not-found exactly when no order is DELIVERED; otherwise returns exactly the delivered orders |
| `Services.OrderService.Create` | src/main/java/com/ibeus/Comanda/Digital/service/OrderService.java:79-95 | fails with not-found exactly when there is no client, storing nothing; otherwise stores one fresh DRAFT entity under a new id, bound to the first client, with the given timestamp, no lines and no snapshots, and leaves the other entries as they were |
| `Services.OrderService.AddItemToOrder` | src/main/java/com/ibeus/Comanda/Digital/service/OrderService.java:98-133 | an unknown order id is not-found; otherwise the in-place update leaves the entity equal to `Cart.AddItem` of its old value with the current menu, returns that line, and on failure changes nothing; no other order changes |
| `Services.OrderService.RemoveItemFromOrder` | src/main/java/com/ibeus/Comanda/Digital/service/OrderService.java:136-167 | an unknown order id is not-found; otherwise the entity ends up as `Cart.RemoveItem` of its old value, or unchanged on failure; no other order changes |
| `Services.OrderService.FinalizeOrder` | src/main/java/com/ibeus/Comanda/Digital/service/OrderService.java:170-204 | an unknown order id is not-found; otherwise the entity ends up as `Cart.Finalize` of its old value, using the client's profile as it reads at that call, or unchanged on failure; no other order changes |
| `Services.OrderService.UpdateStatus` | src/main/java/com/ibeus/Comanda/Digital/service/OrderService.java:208-216 | an unknown order id is not-found; otherwise only the status is overwritten, with any value, and the order is returned; no other order changes |
| `Services.KitchenService.FindKitchenOrders` | src/main/java/com/ibeus/Comanda/Digital/service/KitchenService.java:28-40 | returns exactly the stored orders whose status is on the board, with their current values; none is a DRAFT or DELIVERED |
| `Services.KitchenService.NextStep` | src/main/java/com/ibeus/Comanda/Digital/service/KitchenService.java:46-61 | an unknown order id is not-found; otherwise the entity ends up as `Kitchen.NextStep` of its old value, or unchanged on failure; no other order changes |
| `Services.KitchenService.PreviousStep` | src/main/java/com/ibeus/Comanda/Digital/service/KitchenService.java:68-87 | an unknown order id is not-found; otherwise the entity ends up as `Kitchen.PreviousStep` of its old value, or unchanged on failure; no other order changes |
| `Lifecycle.CartToDoorScenario` | src/main/java/com/ibeus/Comanda/Digital/service/OrderService.java:97-204 | add 2, add 3 (the price changes in between), remove 4, finalize, then three forward moves: one line of 1 at the first price, the name and formatted address of the client the draft is bound to snapshotted, ON_THE_WAY reached, and a move back refused at the gate |

## Left out

- HTTP controllers, CORS and routing. `OrderController` also calls `cancelOrder`, `nextStep` and `previousStep` on `OrderService`, which does not define them. Those calls are not modelled; the kitchen moves are `KitchenService`'s.
- `findAll` and `findById` of `OrderService`: plain repository reads. The mutating methods model the lookup as membership in the repository map.
- `DishService` (CRUD, image storage, the favourite flag) and the postal-code lookup service. Dishes are an id-to-dish map; addresses are opaque records of strings.
- Persistence and transactions. Each method is atomic and single-threaded in the model. Concurrent requests on one order are not modelled.
- Ids are naturals handed out in increasing order by the repository, instead of JPA identity generation. Query results are maps from id to order value, because the repository query has no defined ordering.
- DTOs: the services return order values (`OrderState`) and line values (`OrderItem`) instead of DTO objects. `create` ignores its DTO argument in the source, so the model takes no DTO.
- `Instant.now()`: the timestamp is the parameter `now` of `Create`.
- Order lines are values in the order's `items` sequence. A line's quantity update replaces that element. The line's own database identity and its back-reference to the order are not modelled.
- `Cart.AddItem`: does not model 32-bit wrap-around of the merged quantity (old + requested). Quantities are mathematical integers, and so is the decrement in `Cart.RemoveItem`.
- `Cart.FormatAddress`: `String.format` renders a null string field as "null"; the model's address fields and house number are never null, and only the complement and the whole address are optional.
- `Cart.Finalize`: the client's name is never null in the model, so finalization always stores a name snapshot. In the source a client whose name is null leaves the name snapshot null, and `Cart.FinalizedCartIsFrozen`'s "both snapshots set" then does not hold.
- Prices are `real` values that are copied, never computed with; the source's numeric type and rounding are not modelled.
- Exception message texts: each distinct failure is a `Failure` constructor, with its exception class given by `Failure.Kind`.
- `Outcomes.Failure.Kind`: `OrderNotFound` stands for six throw sites (OrderService.java lines 101, 139, 173 and 210; KitchenService.java lines 48 and 70). Line 139 raises an HTTP 404 `ResponseStatusException` and the others raise `EntityNotFoundException`; the model merges both classes into the one not-found kind. The same merge applies to `NoOrderWithStatus` and `NoDeliveredOrder` (404 responses) against `DishNotFound`, `LineNotFound` and `NoClientRegistered` (`EntityNotFoundException`).
