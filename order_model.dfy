/** The entities of the order lifecycle: the value types the services read
    (addresses, dishes, client profiles, order lines), the Client and Order
    entities, and the value view of an order that the specifications use. */
module OrderModel {
  import opened Outcomes
  import opened OrderStatuses

  /** Database keys; the source uses Long identifiers. */
  type OrderId = nat
  type DishId = nat

  /** The creation timestamp, an opaque instant supplied by the caller. */
  type Instant = int

  /** A dish price; prices are only copied, never computed with. */
  type Price = real

  /** A postal address as resolved by the postal-code lookup; read-only here. */
  datatype Address = Address(street: string, neighborhood: string, city: string, state: string, postalCode: string)

  /** A dish of the menu, as far as orders are concerned. */
  datatype Dish = Dish(name: string, price: Price)

  /** One line of an order: the dish, the quantity, and the unit price copied
      from the dish when the line was created. */
  datatype OrderItem = OrderItem(dishId: DishId, quantity: int, price: Price)

  /** What finalization reads from a client: the name, the default address
      (possibly absent), the house number and the optional complement. */
  datatype ClientProfile = ClientProfile(name: string, address: Option<Address>, addressNumber: string, complement: Option<string>)

  /** A client profile; other parts of the system may edit it at any time. */
  class Client {
    var name: string
    var address: Option<Address>
    var addressNumber: string
    var complement: Option<string>

    constructor (name: string, address: Option<Address>, addressNumber: string, complement: Option<string>)
      ensures Profile() == ClientProfile(name, address, addressNumber, complement)
    {
      this.name := name;
      this.address := address;
      this.addressNumber := addressNumber;
      this.complement := complement;
    }

    /** The profile as it reads now. */
    function Profile(): ClientProfile
      reads this
    {
      ClientProfile(name, address, addressNumber, complement)
    }
  }

  /** The profile of an order's client, None when the order has no client. */
  function ProfileOf(c: Client?): (p: Option<ClientProfile>)
    reads c
    ensures p.None? <==> c == null
  {
    if c == null then None else Some(c.Profile())
  }

  /** The value of an order: every field of the entity, with its lines. */
  datatype OrderState = OrderState(
    status: OrderStatus,
    moment: Instant,
    client: Client?,
    clientSnapshotName: Option<string>,
    addressSnapshot: Option<string>,
    items: seq<OrderItem>)

  /** A freshly created cart: a draft bound to the client, without lines and
      without snapshots. */
  function NewDraft(client: Client?, moment: Instant): (o: OrderState)
    ensures o.status == Draft && o.items == []
    ensures o.client == client && o.moment == moment
    ensures SnapshotConsistent(o)
  {
    OrderState(Draft, moment, client, None, None, [])
  }

  /** The order entity, whose fields the services update in place. */
  class Order {
    var status: OrderStatus
    var moment: Instant
    var client: Client?
    var clientSnapshotName: Option<string>
    var addressSnapshot: Option<string>
    var items: seq<OrderItem>

    /** A new order bound to a client at an instant, in the DRAFT status. */
    constructor (client: Client?, moment: Instant)
      ensures View() == NewDraft(client, moment)
    {
      this.status := Draft;
      this.moment := moment;
      this.client := client;
      this.clientSnapshotName := None;
      this.addressSnapshot := None;
      this.items := [];
    }

    /** The current value of every field. */
    function View(): OrderState
      reads this
    {
      OrderState(status, moment, client, clientSnapshotName, addressSnapshot, items)
    }
  }

  /** The snapshot rule: the client name and the address snapshot are unset
      exactly while the order is a draft. */
  predicate SnapshotConsistent(o: OrderState) {
    (o.status == Draft) <==> (o.clientSnapshotName.None? && o.addressSnapshot.None?)
  }

  /** The orders of a repository view whose status is one of the given ones. */
  function WithStatusIn(orders: map<OrderId, OrderState>, statuses: set<OrderStatus>): (r: map<OrderId, OrderState>)
    ensures forall id :: id in r <==> id in orders && orders[id].status in statuses
    ensures forall id :: id in r ==> r[id] == orders[id]
  {
    map id | id in orders && orders[id].status in statuses :: orders[id]
  }
}
