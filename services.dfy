/** The two services over a shared order repository. Each mutating method
    loads one Order entity, checks it, updates its fields in place and
    leaves every other stored order as it was; its postcondition ties the
    new value of the entity to the specification in Cart or Kitchen. */
module Services {
  import opened Outcomes
  import opened OrderStatuses
  import opened OrderModel
  import Cart
  import Kitchen

  /** The order table: entities by id. New ids are handed out in increasing
      order, and no entity is stored under two ids. */
  class OrderRepository {
    var orders: map<OrderId, Order>
    var nextId: OrderId

    ghost predicate Valid()
      reads this
    {
      && (forall id :: id in orders ==> id < nextId)
      && (forall i, j :: i in orders && j in orders && i != j ==> orders[i] != orders[j])
    }

    constructor ()
      ensures Valid() && orders == map[]
    {
      orders := map[];
      nextId := 0;
    }

    /** The entity an operation on the id may update: the stored order, or
        nothing when the id is unknown. */
    function Target(id: OrderId): set<Order>
      reads this
    {
      if id in orders then {orders[id]} else {}
    }

    /** The value of every stored order. */
    function Contents(): map<OrderId, OrderState>
      reads this, orders.Values
    {
      map id | id in orders :: orders[id].View()
    }

    /** No order other than the one under the id has changed, and the table
        itself is as it was. */
    twostate predicate OthersUnchanged(id: OrderId)
      reads this, orders.Values
    {
      && orders == old(orders)
      && forall k :: k in orders && k != id ==> orders[k].View() == old(orders[k].View())
    }
  }

  /** The clients, in the order the client table lists them. */
  class ClientRepository {
    var clients: seq<Client>

    constructor (clients: seq<Client>)
      ensures this.clients == clients
    {
      this.clients := clients;
    }
  }

  /** The menu: dishes by id. */
  class DishRepository {
    var dishes: map<DishId, Dish>

    constructor (dishes: map<DishId, Dish>)
      ensures this.dishes == dishes
    {
      this.dishes := dishes;
    }
  }

  /** Order queries and the cart protocol. */
  class OrderService {
    const repository: OrderRepository
    const clientRepository: ClientRepository
    const dishRepository: DishRepository

    constructor (repository: OrderRepository, clientRepository: ClientRepository, dishRepository: DishRepository)
      ensures this.repository == repository
      ensures this.clientRepository == clientRepository
      ensures this.dishRepository == dishRepository
    {
      this.repository := repository;
      this.clientRepository := clientRepository;
      this.dishRepository := dishRepository;
    }

    /** findByStatus: every stored order with the status; an empty answer is
        reported as not-found. */
    function FindByStatus(status: OrderStatus): (r: Result<map<OrderId, OrderState>>)
      reads repository, repository.orders.Values
      ensures r.Err? <==> forall id :: id in repository.orders ==> repository.orders[id].status != status
      ensures r.Err? ==> r.error == NoOrderWithStatus && r.error.Kind() == NotFound
      ensures r.Ok? ==> forall id :: id in r.value <==> id in repository.orders && repository.orders[id].status == status
      ensures r.Ok? ==> forall id :: id in r.value ==> r.value[id] == repository.orders[id].View()
    {
      var contents := repository.Contents();
      assert forall id :: id in repository.orders ==> id in contents && contents[id].status == repository.orders[id].status;
      var found := WithStatusIn(contents, {status});
      if found == map[] then Err(NoOrderWithStatus) else Ok(found)
    }

    /** findHistory: every delivered order; an empty history is reported as
        not-found. */
    function FindHistory(): (r: Result<map<OrderId, OrderState>>)
      reads repository, repository.orders.Values
      ensures r.Err? <==> forall id :: id in repository.orders ==> repository.orders[id].status != Delivered
      ensures r.Err? ==> r.error == NoDeliveredOrder && r.error.Kind() == NotFound
      ensures r.Ok? ==> forall id :: id in r.value <==> id in repository.orders && repository.orders[id].status == Delivered
      ensures r.Ok? ==> forall id :: id in r.value ==> r.value[id] == repository.orders[id].View()
    {
      var contents := repository.Contents();
      assert forall id :: id in repository.orders ==> id in contents && contents[id].status == repository.orders[id].status;
      var found := WithStatusIn(contents, {Delivered});
      if found == map[] then Err(NoDeliveredOrder) else Ok(found)
    }

    /** create: a new draft bound to the first listed client, stored under a
        fresh id; not-found when there is no client. */
    method Create(now: Instant) returns (r: Result<(OrderId, OrderState)>)
      requires repository.Valid()
      modifies repository
      ensures repository.Valid()
      ensures r.Err? <==> |clientRepository.clients| == 0
      ensures r.Err? ==> r.error == NoClientRegistered && repository.orders == old(repository.orders)
      ensures r.Ok? ==>
        && r.value.0 !in old(repository.orders)
        && r.value.0 in repository.orders
        && repository.orders == old(repository.orders)[r.value.0 := repository.orders[r.value.0]]
        && fresh(repository.orders[r.value.0])
        && repository.orders[r.value.0].View() == r.value.1
        && r.value.1 == NewDraft(clientRepository.clients[0], now)
    {
      var allClients := clientRepository.clients;
      if |allClients| == 0 {
        return Err(NoClientRegistered);
      }
      var defaultClient := allClients[0];
      var order := new Order(defaultClient, now);
      var id := repository.nextId;
      repository.orders := repository.orders[id := order];
      repository.nextId := id + 1;
      r := Ok((id, order.View()));
    }

    /** addItemToOrder: merges the quantity into the dish's line or appends a
        new line at the dish's current price, and returns that line. */
    method AddItemToOrder(orderId: OrderId, dishId: DishId, quantity: int) returns (r: Result<OrderItem>)
      requires repository.Valid()
      modifies repository.Target(orderId)
      ensures repository.Valid() && repository.OthersUnchanged(orderId)
      ensures orderId !in repository.orders ==> r == Err(OrderNotFound)
      ensures orderId in repository.orders ==>
        var spec := Cart.AddItem(old(repository.orders[orderId].View()), dishRepository.dishes, dishId, quantity);
        && r == (if spec.Ok? then Ok(spec.value.1) else Err(spec.error))
        && repository.orders[orderId].View() == if spec.Ok? then spec.value.0 else old(repository.orders[orderId].View())
    {
      if orderId !in repository.orders {
        return Err(OrderNotFound);
      }
      var order := repository.orders[orderId];
      if order.status != Draft {
        return Err(AddToNonDraft);
      }
      if dishId !in dishRepository.dishes {
        return Err(DishNotFound);
      }
      var dish := dishRepository.dishes[dishId];
      var existing := Cart.LineIndex(order.items, dishId);
      if existing.Some? {
        var k := existing.value;
        var merged := order.items[k].(quantity := order.items[k].quantity + quantity);
        order.items := order.items[k := merged];
        r := Ok(merged);
      } else {
        var line := OrderItem(dishId, quantity, dish.price);
        order.items := order.items + [line];
        r := Ok(line);
      }
    }

    /** removeItemFromOrder: deletes the dish's line or lowers its quantity,
        and returns the order. */
    method RemoveItemFromOrder(orderId: OrderId, dishId: DishId, quantity: int) returns (r: Result<OrderState>)
      requires repository.Valid()
      modifies repository.Target(orderId)
      ensures repository.Valid() && repository.OthersUnchanged(orderId)
      ensures orderId !in repository.orders ==> r == Err(OrderNotFound)
      ensures orderId in repository.orders ==>
        var spec := Cart.RemoveItem(old(repository.orders[orderId].View()), dishId, quantity);
        && r == spec
        && repository.orders[orderId].View() == if spec.Ok? then spec.value else old(repository.orders[orderId].View())
    {
      if orderId !in repository.orders {
        return Err(OrderNotFound);
      }
      var order := repository.orders[orderId];
      if order.status != Draft {
        return Err(RemoveFromNonDraft);
      }
      var existing := Cart.LineIndex(order.items, dishId);
      if existing.None? {
        return Err(LineNotFound);
      }
      if quantity <= 0 {
        return Err(NonPositiveRemoval);
      }
      var k := existing.value;
      var currentQuantity := order.items[k].quantity;
      if quantity >= currentQuantity {
        order.items := order.items[..k] + order.items[k + 1..];
      } else {
        order.items := order.items[k := order.items[k].(quantity := currentQuantity - quantity)];
      }
      r := Ok(order.View());
    }

    /** finalizeOrder: snapshots the client's name and formatted address as
        they read now and moves the draft to RECEIVED. */
    method FinalizeOrder(orderId: OrderId) returns (r: Result<OrderState>)
      requires repository.Valid()
      modifies repository.Target(orderId)
      ensures repository.Valid() && repository.OthersUnchanged(orderId)
      ensures orderId !in repository.orders ==> r == Err(OrderNotFound)
      ensures orderId in repository.orders ==>
        var spec := Cart.Finalize(old(repository.orders[orderId].View()), old(ProfileOf(repository.orders[orderId].client)));
        && r == spec
        && repository.orders[orderId].View() == if spec.Ok? then spec.value else old(repository.orders[orderId].View())
    {
      if orderId !in repository.orders {
        return Err(OrderNotFound);
      }
      var order := repository.orders[orderId];
      if order.status != Draft {
        return Err(FinalizeNonDraft);
      }
      var client := order.client;
      if client == null || client.address.None? {
        return Err(MissingClientOrAddress);
      }
      order.clientSnapshotName := Some(client.name);
      var address := client.address.value;
      var fullAddress := Cart.FormatAddress(address, client.addressNumber, client.complement);
      order.addressSnapshot := Some(fullAddress);
      order.status := Received;
      r := Ok(order.View());
    }

    /** updateStatus: the administrative override; sets any status and
        changes nothing else. */
    method UpdateStatus(orderId: OrderId, newStatus: OrderStatus) returns (r: Result<OrderState>)
      requires repository.Valid()
      modifies repository.Target(orderId)
      ensures repository.Valid() && repository.OthersUnchanged(orderId)
      ensures orderId !in repository.orders ==> r == Err(OrderNotFound)
      ensures orderId in repository.orders ==>
        && repository.orders[orderId].View() == Cart.SetStatus(old(repository.orders[orderId].View()), newStatus)
        && r == Ok(repository.orders[orderId].View())
    {
      if orderId !in repository.orders {
        return Err(OrderNotFound);
      }
      var order := repository.orders[orderId];
      order.status := newStatus;
      r := Ok(order.View());
    }
  }

  /** The kitchen board and its forward and backward moves. */
  class KitchenService {
    const repository: OrderRepository

    constructor (repository: OrderRepository)
      ensures this.repository == repository
    {
      this.repository := repository;
    }

    /** findKitchenOrders: every stored order whose status is on the board. */
    function FindKitchenOrders(): (r: map<OrderId, OrderState>)
      reads repository, repository.orders.Values
      ensures forall id :: id in r <==> id in repository.orders && repository.orders[id].status in Kitchen.KitchenStatuses
      ensures forall id :: id in r ==> r[id] == repository.orders[id].View()
      ensures forall id :: id in r ==> r[id].status != Draft && r[id].status != Delivered
    {
      Kitchen.KitchenOrders(repository.Contents())
    }

    /** nextStep: moves the order one status forward, or fails leaving it as
        it was. */
    method NextStep(orderId: OrderId) returns (r: Result<OrderState>)
      requires repository.Valid()
      modifies repository.Target(orderId)
      ensures repository.Valid() && repository.OthersUnchanged(orderId)
      ensures orderId !in repository.orders ==> r == Err(OrderNotFound)
      ensures orderId in repository.orders ==>
        var spec := Kitchen.NextStep(old(repository.orders[orderId].View()));
        && r == spec
        && repository.orders[orderId].View() == if spec.Ok? then spec.value else old(repository.orders[orderId].View())
    {
      if orderId !in repository.orders {
        return Err(OrderNotFound);
      }
      var order := repository.orders[orderId];
      match order.status {
        case Received => order.status := InPreparation;
        case InPreparation => order.status := Ready;
        case Ready => order.status := OnTheWay;
        case OnTheWay => return Err(AlreadyOutOfKitchen);
        case Delivered => return Err(AlreadyOutOfKitchen);
        case Draft => return Err(NotYetFinalized);
      }
      r := Ok(order.View());
    }

    /** previousStep: moves the order one status back, or fails leaving it
        as it was; ON_THE_WAY and DELIVERED are a one-way gate. */
    method PreviousStep(orderId: OrderId) returns (r: Result<OrderState>)
      requires repository.Valid()
      modifies repository.Target(orderId)
      ensures repository.Valid() && repository.OthersUnchanged(orderId)
      ensures orderId !in repository.orders ==> r == Err(OrderNotFound)
      ensures orderId in repository.orders ==>
        var spec := Kitchen.PreviousStep(old(repository.orders[orderId].View()));
        && r == spec
        && repository.orders[orderId].View() == if spec.Ok? then spec.value else old(repository.orders[orderId].View())
    {
      if orderId !in repository.orders {
        return Err(OrderNotFound);
      }
      var order := repository.orders[orderId];
      match order.status {
        case OnTheWay => return Err(CannotRegressAfterDispatch);
        case Delivered => return Err(CannotRegressAfterDispatch);
        case Ready => order.status := InPreparation;
        case InPreparation => order.status := Received;
        case Received => order.status := Draft;
        case Draft => return Err(AlreadyAtStart);
      }
      r := Ok(order.View());
    }
  }
}
